/** `ui.py`: the timers of the help overlay and of the notification queue (drawing is not modelled). */
module Ui {

  /** Frames the help overlay stays up after being shown: five seconds at 60 frames per second. */
  const HELP_TIMEOUT := 300
  /** The default lifetime of a notification: one and a half seconds at 60 frames per second. */
  const NOTIFICATION_DURATION := 90

  /** One frame of `Tooltip.update` on `(show_help, help_timer)`. */
  function HelpStep(show: bool, timer: int): (bool, int) {
    if timer > 0 then (show, timer - 1) else (false, timer)
  }

  /** `n` frames of `Tooltip.update`. */
  function HelpSteps(show: bool, timer: int, n: nat): (bool, int)
    decreases n
  {
    if n == 0 then (show, timer) else var (s, t) := HelpStep(show, timer); HelpSteps(s, t, n - 1)
  }

  /**
   * Help shown with `t` frames left stays up, counting down, for `t` more updates, and is
   * hidden with the timer at zero from the update after that on.
   */
  lemma {:induction false} HelpLifetime(t: nat, n: nat)
    decreases n
    ensures HelpSteps(true, t, n) == if n <= t then (true, t - n) else (false, 0)
  {
    if n > 0 {
      if t > 0 {
        HelpLifetime(t - 1, n - 1);
      } else {
        HiddenStaysHidden(n - 1);
      }
    }
  }

  /** Once hidden with the timer run out, help stays hidden until toggled. */
  lemma {:induction false} HiddenStaysHidden(n: nat)
    decreases n
    ensures HelpSteps(false, 0, n) == (false, 0)
  {
    if n > 0 {
      HiddenStaysHidden(n - 1);
    }
  }

  /** The help overlay's state. */
  class Tooltip {
    /** The help lines, keyed as in the source (the font is not modelled). */
    const tooltips: map<string, string>
    var showHelp: bool
    const helpTimeout: int
    var helpTimer: int

    /** `Tooltip.__init__`: help is shown for the full timeout. */
    constructor ()
      ensures showHelp && helpTimeout == HELP_TIMEOUT && helpTimer == HELP_TIMEOUT
      ensures |tooltips| == 8
    {
      tooltips := map[
        "movement" := "WASD/Arrows: Move",
        "jump" := "Space: Jump",
        "inventory" := "E: Open/Close Inventory",
        "build" := "B: Toggle Building Mode",
        "interact" := "F/Left Click: Interact/Use Tool",
        "select" := "1-2: Quick Select Tools",
        "inventory_nav" := "A/D or Arrows: Navigate Inventory",
        "inventory_select" := "Space/Enter: Select Tool"
      ];
      showHelp := true;
      helpTimeout := HELP_TIMEOUT;
      helpTimer := HELP_TIMEOUT;
    }

    /** `update`: count down while time is left, otherwise hide the help. */
    method Update()
      modifies this`showHelp, this`helpTimer
      ensures (showHelp, helpTimer) == HelpStep(old(showHelp), old(helpTimer))
      ensures old(helpTimer) > 0 ==> helpTimer == old(helpTimer) - 1 && showHelp == old(showHelp)
      ensures old(helpTimer) <= 0 ==> helpTimer == old(helpTimer) && !showHelp
    {
      if helpTimer > 0 {
        helpTimer := helpTimer - 1;
      } else {
        showHelp := false;
      }
    }

    /** `toggle_help`: flips the overlay, restarting the timer only when it is turned on. */
    method ToggleHelp()
      modifies this`showHelp, this`helpTimer
      ensures showHelp == !old(showHelp)
      ensures helpTimer == if showHelp then helpTimeout else old(helpTimer)
    {
      showHelp := !showHelp;
      if showHelp {
        helpTimer := helpTimeout;
      }
    }
  }

  /** One entry of the notification queue. */
  datatype Notification = Notification(text: string, duration: int)

  /** The entries whose duration is still positive, in their order. */
  function Live(s: seq<Notification>): (r: seq<Notification>)
    ensures |r| <= |s|
  {
    if s == [] then []
    else Live(s[..|s| - 1]) + (if s[|s| - 1].duration > 0 then [s[|s| - 1]] else [])
  }

  /** Every entry with one frame less to live. */
  function Decrement(s: seq<Notification>): (r: seq<Notification>)
    ensures |r| == |s|
  {
    if s == [] then [] else Decrement(s[..|s| - 1]) + [s[|s| - 1].(duration := s[|s| - 1].duration - 1)]
  }

  /** `n` frames of `NotificationSystem.update`. */
  function Updates(s: seq<Notification>, n: nat): seq<Notification>
    decreases n
  {
    if n == 0 then s else Updates(Decrement(Live(s)), n - 1)
  }

  /** Filtering one more entry appends it exactly when its duration is positive. */
  lemma LiveSnoc(s: seq<Notification>, x: Notification)
    ensures Live(s + [x]) == Live(s) + (if x.duration > 0 then [x] else [])
  {
    assert (s + [x])[..|s|] == s;
  }

  /** `Decrement` changes exactly the durations, one by one. */
  lemma {:induction false} DecrementAt(s: seq<Notification>)
    ensures forall k :: 0 <= k < |s| ==> Decrement(s)[k] == s[k].(duration := s[k].duration - 1)
  {
    if s != [] {
      DecrementAt(s[..|s| - 1]);
    }
  }

  /** An entry survives the filter exactly when it is in the queue with a positive duration. */
  lemma {:induction false} LiveMembers(s: seq<Notification>)
    ensures forall x :: x in Live(s) <==> x in s && x.duration > 0
  {
    if s != [] {
      LiveMembers(s[..|s| - 1]);
      assert s == s[..|s| - 1] + [s[|s| - 1]];
    }
  }

  /** The filter keeps the order: filtering a concatenation concatenates the filtered parts. */
  lemma {:induction false} LiveConcat(a: seq<Notification>, b: seq<Notification>)
    decreases |b|
    ensures Live(a + b) == Live(a) + Live(b)
  {
    if b == [] {
      assert a + b == a;
    } else {
      assert (a + b)[..|a + b| - 1] == a + b[..|b| - 1];
      LiveConcat(a, b[..|b| - 1]);
    }
  }

  lemma {:induction false} DecrementConcat(a: seq<Notification>, b: seq<Notification>)
    decreases |b|
    ensures Decrement(a + b) == Decrement(a) + Decrement(b)
  {
    if b == [] {
      assert a + b == a;
    } else {
      assert (a + b)[..|a + b| - 1] == a + b[..|b| - 1];
      DecrementConcat(a, b[..|b| - 1]);
    }
  }

  /**
   * Entries age independently: updating a queue updates each part of it on its own, so an
   * entry's lifetime does not depend on what was queued before or after it.
   */
  lemma {:induction false} UpdatesConcat(a: seq<Notification>, b: seq<Notification>, n: nat)
    decreases n
    ensures Updates(a + b, n) == Updates(a, n) + Updates(b, n)
  {
    if n > 0 {
      LiveConcat(a, b);
      DecrementConcat(Live(a), Live(b));
      UpdatesConcat(Decrement(Live(a)), Decrement(Live(b)), n - 1);
    }
  }

  /** After an update every remaining duration is at least zero. */
  lemma {:induction false} UpdatedNonNegative(s: seq<Notification>)
    ensures forall x :: x in Decrement(Live(s)) ==> x.duration >= 0
  {
    var l := Live(s);
    LiveMembers(s);
    DecrementAt(l);
    forall x | x in Decrement(l)
      ensures x.duration >= 0
    {
      var k :| 0 <= k < |l| && Decrement(l)[k] == x;
      assert l[k] in l;
    }
  }

  /** One update of a single entry: it ages by one frame if its duration was positive, else goes. */
  lemma UpdateSingle(x: Notification)
    ensures Decrement(Live([x])) == if x.duration > 0 then [x.(duration := x.duration - 1)] else []
  {
    assert [x][..0] == [];
  }

  /**
   * A notification with duration `d` is still queued, with `d - n` frames left, after
   * `n <= d` updates, and gone after any later one.
   */
  lemma {:induction false} Lifetime(x: Notification, n: nat)
    decreases n
    ensures Updates([x], n) == if n == 0 || n <= x.duration then [x.(duration := x.duration - n)] else []
  {
    if n > 0 {
      UpdateSingle(x);
      if x.duration > 0 {
        var y := x.(duration := x.duration - 1);
        Lifetime(y, n - 1);
        assert y.(duration := y.duration - (n - 1)) == x.(duration := x.duration - n);
      } else {
        EmptyStaysEmpty(n - 1);
      }
    }
  }

  lemma {:induction false} EmptyStaysEmpty(n: nat)
    decreases n
    ensures Updates([], n) == []
  {
    if n > 0 {
      EmptyStaysEmpty(n - 1);
    }
  }

  /** The notification queue. */
  class NotificationSystem {
    var notifications: seq<Notification>

    constructor ()
      ensures notifications == []
    {
      notifications := [];
    }

    /** `add_notification`: appends one entry, by default for 90 frames. */
    method AddNotification(text: string, duration: int := NOTIFICATION_DURATION)
      modifies this
      ensures notifications == old(notifications) + [Notification(text, duration)]
    {
      notifications := notifications + [Notification(text, duration)];
    }

    /** `update`: drops the expired entries, then ages the survivors by one frame. */
    method Update()
      modifies this
      ensures notifications == Decrement(Live(old(notifications)))
    {
      DropExpired();
      AgeAll();
    }

    /** The first half of `update`: rebuild the queue from the entries with a positive duration. */
    method DropExpired()
      modifies this
      ensures notifications == Live(old(notifications))
    {
      var queued := notifications;
      var kept: seq<Notification> := [];
      for i := 0 to |queued|
        invariant kept == Live(queued[..i])
      {
        LiveSnoc(queued[..i], queued[i]);
        assert queued[..i + 1] == queued[..i] + [queued[i]];
        if queued[i].duration > 0 {
          kept := kept + [queued[i]];
        }
      }
      assert queued[..|queued|] == queued;
      notifications := kept;
    }

    /** The second half of `update`: decrement every entry's duration in place. */
    method AgeAll()
      modifies this
      ensures notifications == Decrement(old(notifications))
    {
      ghost var before := notifications;
      for i := 0 to |notifications|
        invariant |notifications| == |before|
        invariant forall k :: 0 <= k < i ==> notifications[k] == before[k].(duration := before[k].duration - 1)
        invariant forall k :: i <= k < |before| ==> notifications[k] == before[k]
      {
        var entry := notifications[i];
        notifications := notifications[i := entry.(duration := entry.duration - 1)];
      }
      DecrementAt(before);
    }
  }
}
