/**
 * The dialog that asks for a contest URL: it can parse the contest now or
 * schedule it for a chosen hour and minute, and a running or scheduled
 * parse can be aborted. Modelled are the enabled flags and labels of its
 * buttons and spinners, the spinner values, and whether it is shown; the
 * clock is a parameter of `Show`.
 */
module NewContest {
  const SCHEDULE_TEXT := "Schedule"
  const SCHEDULED_TEXT := "Scheduled..."
  const PARSE_TEXT := "Parse"
  const PARSING_TEXT := "Parsing..."

  const MINUTES_PER_DAY := 24 * 60

  /** The minute rounded up to the next quarter of an hour: the smallest
      multiple of 15 that is not below it (60 for minutes past 45). */
  function QuarterUp(minute: nat): (quarter: nat)
    requires minute < 60
    ensures quarter % 15 == 0
    ensures minute <= quarter < minute + 15
    ensures quarter <= 60
  {
    (minute + 14) / 15 * 15
  }

  /** The time `show` proposes for a clock reading `hour`:`minute`: the
      minute rounded up to a quarter, with 60 carried into the hour (and
      midnight wrapping round). */
  function ProposedTime(hour: nat, minute: nat): (time: (nat, nat))
    requires hour < 24 && minute < 60
    ensures time.0 < 24 && time.1 in {0, 15, 30, 45}
  {
    var quarter := QuarterUp(minute);
    if quarter == 60 then ((hour + 1) % 24, 0) else (hour, quarter)
  }

  /** The proposed time is the first quarter of an hour at or after the
      clock reading, counting round midnight. */
  lemma ProposedIsNextQuarter(hour: nat, minute: nat)
    requires hour < 24 && minute < 60
    ensures var time := ProposedTime(hour, minute);
            var ahead := (time.0 * 60 + time.1 - (hour * 60 + minute)) % MINUTES_PER_DAY;
            ahead < 15 && (hour * 60 + minute + ahead) % 15 == 0
  {
    var quarter := QuarterUp(minute);
    if quarter == 60 && hour == 23 {
      assert ProposedTime(hour, minute) == (0, 0);
      assert (0 - (hour * 60 + minute)) % MINUTES_PER_DAY == 60 - minute;
    }
  }

  class NewContestDialog {
    var scheduleEnabled: bool
    var hourEnabled: bool
    var minuteEnabled: bool
    var parseEnabled: bool
    var abortEnabled: bool
    var scheduleText: string
    var parseText: string
    var hour: nat
    var minute: nat
    var visible: bool

    /** Waiting for the user: everything enabled but abort. */
    predicate Idle()
      reads this
    {
      scheduleEnabled && hourEnabled && minuteEnabled && parseEnabled && !abortEnabled
    }

    /** Parsing or scheduled: everything disabled but abort. */
    predicate Busy()
      reads this
    {
      !scheduleEnabled && !hourEnabled && !minuteEnabled && !parseEnabled && abortEnabled
    }

    /** The spinners start at 0:00 and the dialog hidden. The labels and
        enabled flags come from the form layout, which is not part of this
        model: they are parameters. */
    constructor (initiallyIdle: bool, scheduleLabel: string, parseLabel: string)
      ensures initiallyIdle ==> Idle()
      ensures !initiallyIdle ==> Busy()
      ensures scheduleText == scheduleLabel && parseText == parseLabel
      ensures hour == 0 && minute == 0 && !visible
    {
      scheduleEnabled, hourEnabled, minuteEnabled, parseEnabled, abortEnabled :=
        initiallyIdle, initiallyIdle, initiallyIdle, initiallyIdle, !initiallyIdle;
      scheduleText, parseText := scheduleLabel, parseLabel;
      hour, minute := 0, 0;
      visible := false;
    }

    /** `show`: while scheduling is possible the spinners are set to the
        next quarter of an hour after the clock reading `clockHour`:
        `clockMinute`; otherwise they keep the scheduled time. The dialog
        becomes visible. */
    method Show(clockHour: nat, clockMinute: nat)
      requires clockHour < 24 && clockMinute < 60
      modifies this
      ensures scheduleEnabled ==> (hour, minute) == ProposedTime(clockHour, clockMinute)
      ensures !scheduleEnabled ==> hour == old(hour) && minute == old(minute)
      ensures visible
      ensures scheduleEnabled == old(scheduleEnabled) && hourEnabled == old(hourEnabled)
      ensures minuteEnabled == old(minuteEnabled) && parseEnabled == old(parseEnabled)
      ensures abortEnabled == old(abortEnabled)
      ensures scheduleText == old(scheduleText) && parseText == old(parseText)
    {
      if scheduleEnabled {
        var newHour := clockHour;
        var newMinute := (clockMinute + 14) / 15 * 15;
        if newMinute == 60 {
          newHour := (newHour + 1) % 24;
          newMinute := 0;
        }
        hour, minute := newHour, newMinute;
      }
      visible := true;
    }

    /** `toggleButtons`: schedule, the spinners and parse follow `enabled`,
        abort the opposite. */
    method ToggleButtons(enabled: bool)
      modifies this
      ensures enabled ==> Idle()
      ensures !enabled ==> Busy()
      ensures scheduleText == old(scheduleText) && parseText == old(parseText)
      ensures hour == old(hour) && minute == old(minute) && visible == old(visible)
    {
      scheduleEnabled := enabled;
      hourEnabled := enabled;
      minuteEnabled := enabled;
      parseEnabled := enabled;
      abortEnabled := !enabled;
    }

    /** `schedule`: the schedule button says it is scheduled and everything
        but abort is disabled. */
    method Schedule()
      modifies this
      ensures Busy()
      ensures scheduleText == SCHEDULED_TEXT && parseText == old(parseText)
      ensures hour == old(hour) && minute == old(minute) && visible == old(visible)
    {
      scheduleText := SCHEDULED_TEXT;
      ToggleButtons(false);
    }

    /** `startParsing`: the parse button says it is parsing and everything
        but abort is disabled. */
    method StartParsing()
      modifies this
      ensures Busy()
      ensures parseText == PARSING_TEXT && scheduleText == old(scheduleText)
      ensures hour == old(hour) && minute == old(minute) && visible == old(visible)
    {
      parseText := PARSING_TEXT;
      ToggleButtons(false);
    }

    /** `abort`: a scheduled parse gets its schedule label back, anything
        else its parse label; then everything but abort is enabled. */
    method Abort()
      modifies this
      ensures Idle()
      ensures old(scheduleText) == SCHEDULED_TEXT ==> scheduleText == SCHEDULE_TEXT && parseText == old(parseText)
      ensures old(scheduleText) != SCHEDULED_TEXT ==> parseText == PARSE_TEXT && scheduleText == old(scheduleText)
      ensures hour == old(hour) && minute == old(minute) && visible == old(visible)
    {
      if scheduleText == SCHEDULED_TEXT {
        scheduleText := SCHEDULE_TEXT;
      } else {
        parseText := PARSE_TEXT;
      }
      ToggleButtons(true);
    }

    /** `closeDialog`: a parse in progress or scheduled (parse disabled) is
        aborted first; the dialog is hidden either way. */
    method CloseDialog()
      modifies this
      ensures !visible
      ensures !old(parseEnabled) ==> Idle()
      ensures !old(parseEnabled) && old(scheduleText) == SCHEDULED_TEXT ==>
                scheduleText == SCHEDULE_TEXT && parseText == old(parseText)
      ensures !old(parseEnabled) && old(scheduleText) != SCHEDULED_TEXT ==>
                parseText == PARSE_TEXT && scheduleText == old(scheduleText)
      ensures old(parseEnabled) ==>
                scheduleEnabled == old(scheduleEnabled) && hourEnabled == old(hourEnabled) &&
                minuteEnabled == old(minuteEnabled) && parseEnabled && abortEnabled == old(abortEnabled) &&
                scheduleText == old(scheduleText) && parseText == old(parseText)
      ensures hour == old(hour) && minute == old(minute)
    {
      if !parseEnabled {
        Abort();
      }
      visible := false;
    }
  }
}
