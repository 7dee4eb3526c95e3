/** The daily maintenance window, in exact seconds of the local day. */
module Window {
  import opened Wrappers

  const MINUTE := 60
  const DAY := 86400

  newtype MinuteOfDay = m: int | 0 <= m < 1440

  /** start after end means an overnight window; an unset bound means no window. */
  datatype Window = Window(start: Option<MinuteOfDay>, end: Option<MinuteOfDay>) {

    predicate Configured() {
      start.Some? && end.Some?
    }

    /** Seconds until the window closes, or none when `now` is outside it. */
    function Remaining(now: nat): Option<int>
      requires Configured() && now < DAY
    {
      var s, e := start.value as int * MINUTE, end.value as int * MINUTE;
      if s <= e then
        if s <= now <= e then Some(e - now) else None
      else if now >= s then Some(DAY - now + e)
      else if now <= e then Some(e - now)
      else None
    }

    /** May a disruptive action estimated at `estimate` seconds start at second `now` of the day? */
    predicate Allows(now: nat, estimate: nat)
      requires now < DAY
    {
      Configured() ==>
        var left := Remaining(now);
        left.Some? && estimate <= left.value
    }

    /** The closed daily window, second by second. */
    predicate Inside(t: nat)
      requires Configured()
    {
      var s, e, x := start.value as int * MINUTE, end.value as int * MINUTE, t % DAY;
      if s <= e then s <= x <= e else x >= s || x <= e
    }
  }

  function Wrap(t: nat): (r: nat)
    ensures r < DAY
    ensures t < DAY ==> r == t
    ensures DAY <= t < 2 * DAY ==> r == t - DAY
  {
    t % DAY
  }

  /** Permission is exactly: every second of the action, taken modulo a day, lies in the window. */
  lemma AllowsIsExact(w: Window, now: nat, estimate: nat)
    requires w.Configured() && now < DAY
    ensures w.Allows(now, estimate) <==> forall t | now <= t <= now + estimate :: w.Inside(t)
  {
    var s, e := w.start.value as int * MINUTE, w.end.value as int * MINUTE;
    if w.Allows(now, estimate) {
      forall t | now <= t <= now + estimate ensures w.Inside(t) {
        var _ := Wrap(t);
      }
    } else if w.Inside(now) {
      // The first second after the window closes is part of the action.
      var close := now + w.Remaining(now).value + 1;
      var _ := Wrap(close);
      assert !w.Inside(close);
    } else {
      assert !w.Inside(now);
    }
  }

  /** A shorter action is permitted whenever a longer one is. */
  lemma AllowsDownwardClosed(w: Window, now: nat, estimate: nat, shorter: nat)
    requires now < DAY && shorter <= estimate && w.Allows(now, estimate)
    ensures w.Allows(now, shorter)
  {
  }

  /** Permitted work stays permitted as time passes: what is left of it still fits. */
  lemma AllowsAsTimePasses(w: Window, now: nat, estimate: nat, elapsed: nat)
    requires now < DAY && elapsed <= estimate && w.Allows(now, estimate)
    ensures w.Allows(Wrap(now + elapsed), estimate - elapsed)
  {
    if w.Configured() {
      AllowsIsExact(w, now, estimate);
      var later := Wrap(now + elapsed);
      forall t | later <= t <= later + (estimate - elapsed) ensures w.Inside(t) {
        var original := t - later + now + elapsed;
        assert w.Inside(original);
        assert original % DAY == t % DAY;
      }
      AllowsIsExact(w, later, estimate - elapsed);
    }
  }
}
