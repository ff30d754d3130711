/** The POS opening checks: `posOpening` (is any opening entry of the
    branch open?) and `validate_pos_close` (was yesterday's business day
    left open?).

    Date-times are microseconds since midnight of day 0 and dates are day
    numbers, so `now` stands for `frappe.utils.now_datetime()`. */
module PosOpening {
  import opened Wrappers

  /** A "POS Opening Entry" row. */
  datatype OpeningEntry = OpeningEntry(
    name: string,
    docstatus: int,
    status: string,
    postingDate: int,
    posProfile: string)

  /** A submitted entry whose status is "Open". */
  predicate IsOpenSubmitted(e: OpeningEntry)
  {
    e.status == "Open" && e.docstatus == 1
  }

  /** `posOpening` over the branch's opening entries: the flag starts at 1
      and drops to 0 at a submitted open entry. */
  method PosOpeningFlag(entries: seq<OpeningEntry>) returns (flag: int)
    ensures flag == 0 || flag == 1
    ensures flag == 0 <==> exists k :: 0 <= k < |entries| && IsOpenSubmitted(entries[k])
  {
    flag := 1;
    var i := 0;
    while i < |entries|
      invariant 0 <= i <= |entries|
      invariant flag == 0 || flag == 1
      invariant flag == 0 <==> exists k :: 0 <= k < i && IsOpenSubmitted(entries[k])
    {
      if entries[i].status == "Open" && entries[i].docstatus == 1 {
        flag := 0;
      }
      i := i + 1;
    }
  }

  const MicrosPerDay: int := 24 * 60 * 60 * 1_000_000
  const FiveAm: int := 5 * 60 * 60 * 1_000_000

  /** `datetime.date()` of an instant. */
  function DateOf(t: int): int
  {
    t / MicrosPerDay
  }

  /** `now.replace(hour=5, minute=0, second=0, microsecond=0)`: 05:00:00.000000
      on `now`'s date. */
  function StartOfDay(now: int): (s: int)
    ensures DateOf(s) == DateOf(now)
    ensures s % MicrosPerDay == FiveAm
  {
    DateOf(now) * MicrosPerDay + FiveAm
  }

  /** `previous_day.date()` in `validate_pos_close`: after 05:00 the check
      looks at yesterday's openings, up to and including 05:00 at today's. */
  function ReferenceDate(now: int): (d: int)
    ensures now % MicrosPerDay > FiveAm ==> d == DateOf(now) - 1
    ensures now % MicrosPerDay <= FiveAm ==> d == DateOf(now)
  {
    var start := StartOfDay(now);
    var previousDay := if now > start then start - MicrosPerDay else start;
    DateOf(previousDay)
  }

  /** The date checked is not monotone in the clock: at 05:00:00.000000 it
      is today, one microsecond later it is yesterday. */
  lemma ReferenceDateJumpsBack(day: int)
    ensures ReferenceDate(day * MicrosPerDay + FiveAm) == day
    ensures ReferenceDate(day * MicrosPerDay + FiveAm + 1) == day - 1
  {
  }

  /** The filters of the `frappe.db.exists` query in `validate_pos_close`. */
  predicate IsUnclosed(e: OpeningEntry, date: int, posProfile: string)
  {
    e.postingDate == date && e.status == "Open" && e.posProfile == posProfile
  }

  /** `frappe.db.exists("POS Opening Entry", {...})`: some row passes the
      filters. */
  function UnclosedExists(entries: seq<OpeningEntry>, date: int, posProfile: string): (r: bool)
    ensures r <==> exists k :: 0 <= k < |entries| && IsUnclosed(entries[k], date, posProfile)
  {
    if entries == [] then false
    else IsUnclosed(entries[0], date, posProfile) || UnclosedExists(entries[1..], date, posProfile)
  }

  datatype CloseCheck = Success | Failed

  /** `validate_pos_close(pos_profile)`: `dailyClose` is the profile's
      `custom_daily_pos_close` value and `entries` the opening entries. */
  function ValidatePosClose(dailyClose: Option<int>, posProfile: string, now: int, entries: seq<OpeningEntry>): (r: CloseCheck)
    ensures !(dailyClose.Some? && dailyClose.value != 0) ==> r == Success
    ensures r == Failed <==>
      && dailyClose.Some? && dailyClose.value != 0
      && exists k :: 0 <= k < |entries| && IsUnclosed(entries[k], ReferenceDate(now), posProfile)
  {
    if dailyClose.Some? && dailyClose.value != 0 then
      if UnclosedExists(entries, ReferenceDate(now), posProfile) then Failed else Success
    else Success
  }

  /** The close check ignores `docstatus`: a draft entry still "Open" on the
      reference date fails it, although `posOpening` does not count it as
      open. */
  lemma DraftOpeningBlocksClose(posProfile: string, now: int, name: string)
    ensures var e := OpeningEntry(name, 0, "Open", ReferenceDate(now), posProfile);
      && ValidatePosClose(Some(1), posProfile, now, [e]) == Failed
      && !IsOpenSubmitted(e)
  {
  }
}
