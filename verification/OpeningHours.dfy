/**
 * Staffed hours and the memo in front of them. A time zone is a fixed offset
 * in minutes; parsing the flag's text is not part of this model, only what a
 * parsed window may be.
 */
module OpeningHours {
  import opened Wrappers

  const MINUTE_MS: nat := 60_000
  const MINUTES_PER_DAY: nat := 1_440

  /** Minutes since local midnight; "24:00" is MINUTES_PER_DAY. */
  datatype Window = Window(start: nat, end: nat, offset: int)
  {
    predicate Valid() {
      start <= MINUTES_PER_DAY && end <= MINUTES_PER_DAY && start != end
    }
  }

  type Hours = w: Window | w.Valid() witness Window(0, MINUTES_PER_DAY, 0)

  datatype Flags = Flags(matchingEnabled: bool, banner: string, hours: Option<Hours>)

  datatype Status = Status(open: bool, reopensAt: Option<nat>, message: Option<string>)

  const PAUSED_MESSAGE := "Matching is paused right now."

  function LocalMinutes(minute: nat, offset: int): nat {
    (minute + offset) % MINUTES_PER_DAY
  }

  predicate InsideWindow(w: Window, minutes: nat) {
    if w.start < w.end then w.start <= minutes < w.end else minutes >= w.start || minutes < w.end
  }

  /** Open in the given minute since the epoch. */
  predicate OpenIn(w: Window, minute: nat) {
    InsideWindow(w, LocalMinutes(minute, w.offset))
  }

  /** The first open minute among `minute + i` .. `minute + MINUTES_PER_DAY`. */
  function NextOpen(w: Window, minute: nat, i: nat): Option<nat>
    requires i <= MINUTES_PER_DAY + 1
    decreases MINUTES_PER_DAY + 1 - i
  {
    if i == MINUTES_PER_DAY + 1 then None
    else if OpenIn(w, minute + i) then Some(minute + i)
    else NextOpen(w, minute, i + 1)
  }

  function MatchingStatus(flags: Flags, now: nat): Status {
    if !flags.matchingEnabled then Status(false, None, Some(if flags.banner == "" then PAUSED_MESSAGE else flags.banner))
    else if flags.hours == None || OpenIn(flags.hours.value, now / MINUTE_MS) then Status(true, None, None)
    else
      var next := NextOpen(flags.hours.value, now / MINUTE_MS, 1);
      Status(false, if next.Some? then Some(next.value * MINUTE_MS) else None, None)
  }

  /** Walks at most a day of minutes for the next opening. */
  method ComputeStatus(flags: Flags, now: nat) returns (status: Status)
    ensures status == MatchingStatus(flags, now)
  {
    if !flags.matchingEnabled {
      return Status(false, None, Some(if flags.banner == "" then PAUSED_MESSAGE else flags.banner));
    }
    if flags.hours == None || InsideWindow(flags.hours.value, LocalMinutes(now / MINUTE_MS, flags.hours.value.offset)) {
      return Status(true, None, None);
    }
    var w := flags.hours.value;
    var startOfMinute := now - now % MINUTE_MS;
    var minute := now / MINUTE_MS;
    assert startOfMinute == minute * MINUTE_MS;
    var i := 1;
    while i <= MINUTES_PER_DAY
      invariant 1 <= i <= MINUTES_PER_DAY + 1
      invariant NextOpen(w, minute, i) == NextOpen(w, minute, 1)
    {
      var t := startOfMinute + i * MINUTE_MS;
      MinuteOf(minute, i);
      if InsideWindow(w, LocalMinutes(t / MINUTE_MS, w.offset)) {
        return Status(false, Some(t), None);
      }
      i := i + 1;
    }
    return Status(false, None, None);
  }

  lemma MinuteOf(minute: nat, i: nat)
    ensures (minute * MINUTE_MS + i * MINUTE_MS) / MINUTE_MS == minute + i
    ensures minute * MINUTE_MS + i * MINUTE_MS == (minute + i) * MINUTE_MS
  {
  }

  lemma {:induction false} NextOpenIsFirst(w: Window, minute: nat, i: nat)
    requires i <= MINUTES_PER_DAY + 1
    ensures var next := NextOpen(w, minute, i);
      if next.Some? then
        && minute + i <= next.value <= minute + MINUTES_PER_DAY && OpenIn(w, next.value)
        && forall m :: minute + i <= m < next.value ==> !OpenIn(w, m)
      else forall m :: minute + i <= m <= minute + MINUTES_PER_DAY ==> !OpenIn(w, m)
    decreases MINUTES_PER_DAY + 1 - i
  {
    if i <= MINUTES_PER_DAY && !OpenIn(w, minute + i) {
      NextOpenIsFirst(w, minute, i + 1);
    }
  }

  /* ---------------------------------------------------------------- */
  /* When a window is empty                                            */
  /* ---------------------------------------------------------------- */

  predicate NeverOpens(w: Window) {
    w.start == MINUTES_PER_DAY && w.end == 0
  }

  /** Some minute of the day is inside exactly when the window is not "24:00-00:00". */
  lemma EmptyWindow(w: Hours)
    ensures NeverOpens(w) <==> forall m: nat :: m < MINUTES_PER_DAY ==> !InsideWindow(w, m)
  {
    if w.start < w.end {
      assert InsideWindow(w, w.start);
    } else if w.end > 0 {
      assert InsideWindow(w, 0);
    } else if w.start < MINUTES_PER_DAY {
      assert InsideWindow(w, w.start);
    }
  }

  /** Within any day ahead every minute of the local day comes up. */
  lemma EveryMinuteComesUp(minute: nat, offset: int, m: nat) returns (at: nat)
    requires m < MINUTES_PER_DAY
    ensures minute < at <= minute + MINUTES_PER_DAY && LocalMinutes(at, offset) == m
  {
    var here := LocalMinutes(minute, offset);
    var ahead := if m > here then m - here else m - here + MINUTES_PER_DAY;
    at := minute + ahead;
    var day := (minute + offset) / MINUTES_PER_DAY;
    assert minute + offset == day * MINUTES_PER_DAY + here;
    assert at + offset == (if m > here then day else day + 1) * MINUTES_PER_DAY + m;
  }

  /**
   * Closed by hours: `reopensAt` is the least later instant at which matching
   * is open, and it is missing exactly when the window is empty.
   */
  lemma ReopensAtIsLeast(flags: Flags, now: nat)
    requires flags.matchingEnabled && flags.hours.Some? && !OpenIn(flags.hours.value, now / MINUTE_MS)
    ensures var status := MatchingStatus(flags, now);
      && !status.open
      && (status.reopensAt == None <==> NeverOpens(flags.hours.value))
      && (status.reopensAt.Some? ==>
            && status.reopensAt.value > now && MatchingStatus(flags, status.reopensAt.value).open
            && forall t: nat :: now <= t < status.reopensAt.value ==> !MatchingStatus(flags, t).open)
  {
    var w := flags.hours.value;
    var minute := now / MINUTE_MS;
    NextOpenIsFirst(w, minute, 1);
    EmptyWindow(w);
    var next := NextOpen(w, minute, 1);
    if next.Some? {
      MinuteOf(next.value, 0);
      assert InsideWindow(w, LocalMinutes(next.value, w.offset));
      forall t: nat | now <= t < next.value * MINUTE_MS ensures !MatchingStatus(flags, t).open {
        assert minute <= t / MINUTE_MS < next.value;
      }
    } else if !NeverOpens(w) {
      SomethingOpens(w, minute);
    }
  }

  /** The minute of the day `k` minutes after minute `from`. */
  function MinuteAfter(from: nat, k: nat): nat {
    (from + k) % MINUTES_PER_DAY
  }

  /** How many minutes a window has, around midnight if it must. */
  function LengthOf(w: Hours): nat {
    if w.start < w.end then w.end - w.start else w.end + MINUTES_PER_DAY - w.start
  }

  /** Minute `m` of the day is one of the window's minutes, counted from its start. */
  ghost predicate Covers(w: Hours, m: nat) {
    exists k: nat :: k < LengthOf(w) && m == MinuteAfter(w.start, k)
  }

  lemma InsideIffCovers(w: Hours, m: nat)
    requires m < MINUTES_PER_DAY
    ensures InsideWindow(w, m) <==> Covers(w, m)
  {
    if InsideWindow(w, m) {
      var k := if m >= w.start then m - w.start else m + MINUTES_PER_DAY - w.start;
      assert m == MinuteAfter(w.start, k);
    }
    if k: nat :| k < LengthOf(w) && m == MinuteAfter(w.start, k) {
      assert m == if w.start + k < MINUTES_PER_DAY then w.start + k else w.start + k - MINUTES_PER_DAY;
    }
  }

  /**
   * Matching is open at an instant exactly when the switch is on and there are
   * no hours, or the local minute of the day is one they cover. While it is off
   * no reopening is promised and the banner, or a default, says so.
   */
  lemma OpenIffSwitchedOnInHours(flags: Flags, now: nat, day: int, m: nat)
    requires m < MINUTES_PER_DAY && (flags.hours.Some? ==> now / MINUTE_MS + flags.hours.value.offset == day * MINUTES_PER_DAY + m)
    ensures var status := MatchingStatus(flags, now);
      && (status.open <==> flags.matchingEnabled && (flags.hours == None || Covers(flags.hours.value, m)))
      && (status.open || !flags.matchingEnabled ==> status.reopensAt == None)
      && (status.message.Some? <==> !flags.matchingEnabled)
      && (status.message.Some? ==> status.message.value == if flags.banner == "" then PAUSED_MESSAGE else flags.banner)
  {
    if flags.hours.Some? {
      InsideIffCovers(flags.hours.value, m);
      assert LocalMinutes(now / MINUTE_MS, flags.hours.value.offset) == m;
    }
  }

  lemma SomethingOpens(w: Hours, minute: nat)
    requires !NeverOpens(w)
    ensures exists m :: minute < m <= minute + MINUTES_PER_DAY && OpenIn(w, m)
  {
    EmptyWindow(w);
    var m: nat :| m < MINUTES_PER_DAY && InsideWindow(w, m);
    var at := EveryMinuteComesUp(minute, w.offset, m);
    assert OpenIn(w, at);
  }

  /* ---------------------------------------------------------------- */
  /* The memo                                                          */
  /* ---------------------------------------------------------------- */

  /** The answer only depends on the minute. */
  lemma SameMinuteSameStatus(flags: Flags, now: nat, later: nat)
    requires now / MINUTE_MS == later / MINUTE_MS
    ensures MatchingStatus(flags, now) == MatchingStatus(flags, later)
  {
  }

  /** A flag set as fetched: refreshes compare contents, the memo compares identity. */
  class FlagSet {
    const flags: Flags

    constructor (flags: Flags)
      ensures this.flags == flags
    {
      this.flags := flags;
    }
  }

  datatype Memo = Memo(source: FlagSet, minute: nat, status: Status)

  class FlagsReader {
    var value: FlagSet
    var memo: Option<Memo>

    /** What is remembered is right for every instant of its minute. */
    ghost predicate Valid()
      reads this
    {
      memo.Some? ==> forall t: nat :: t / MINUTE_MS == memo.value.minute ==> MatchingStatus(memo.value.source.flags, t) == memo.value.status
    }

    constructor (defaults: Flags)
      ensures Valid() && value.flags == defaults
    {
      value := new FlagSet(defaults);
      memo := None;
    }

    /** Always the status of the current flags, remembered or computed. */
    method Status(now: nat) returns (status: Status)
      requires Valid()
      modifies this`memo
      ensures Valid() && status == MatchingStatus(value.flags, now)
    {
      var minute := now / MINUTE_MS;
      if memo.Some? && memo.value.source == value && memo.value.minute == minute {
        return memo.value.status;
      }
      status := ComputeStatus(value.flags, now);
      memo := Some(Memo(value, minute, status));
      forall t: nat | t / MINUTE_MS == minute ensures MatchingStatus(value.flags, t) == status {
        SameMinuteSameStatus(value.flags, now, t);
      }
    }

    /** The same object is kept while nothing changed, so the status stays remembered. */
    method Refresh(next: FlagSet) returns (changed: bool)
      requires Valid()
      modifies this`value
      ensures Valid() && value.flags == next.flags
      ensures changed == (old(value).flags != next.flags) && (!changed ==> value == old(value))
    {
      changed := value.flags != next.flags;
      if changed {
        value := next;
      }
    }
  }
}
