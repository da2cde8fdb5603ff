/** The settings of a room and the `set-settings` rule (src/server.js:362-373). */
module Config {
  import opened Wrappers

  /** Number of rounds, whether the clocks run, each clock's length and the bonus per move
      (both in milliseconds). */
  datatype Settings = Settings(rounds: int, timerEnabled: bool, timerLength: int, timerBonus: int)

  /** A new room: one round, clocks on, ten minutes, two seconds' bonus (src/server.js:621-627). */
  const DefaultSettings := Settings(1, true, 10 * 60 * 1000, 2 * 1000)

  /** The ranges the handler accepts: 1 to 15 rounds, a clock shorter than 100 minutes, a
      bonus shorter than 61 seconds. */
  predicate InRange(s: Settings) {
    && 0 < s.rounds < 16
    && 0 < s.timerLength < 100 * 60 * 1000
    && 0 < s.timerBonus < 61 * 1000
  }

  /** What a client sends; an absent number is None, an absent `timerEnabled` is false. */
  datatype SettingsPayload = SettingsPayload(
    rounds: Option<int>, timerEnabled: bool, timerLength: Option<int>, timerBonus: Option<int>)

  function Accepted(v: Option<int>, lo: int, hi: int): bool {
    v.Some? && lo < v.value < hi
  }

  /** The owner's update: each number is taken when it lies in its range and ignored
      otherwise, while `timerEnabled` is copied unconditionally. A missing payload (None)
      makes the handler fail on reading `timerEnabled` before anything is written. */
  function ApplySettings(s: Settings, p: Option<SettingsPayload>): (r: Settings)
    ensures p.None? ==> r == s
    ensures p.Some? ==> r.timerEnabled == p.value.timerEnabled
    ensures p.Some? ==>
      && r.rounds == (if Accepted(p.value.rounds, 0, 16) then p.value.rounds.value else s.rounds)
      && r.timerLength == (if Accepted(p.value.timerLength, 0, 100 * 60 * 1000) then p.value.timerLength.value else s.timerLength)
      && r.timerBonus == (if Accepted(p.value.timerBonus, 0, 61 * 1000) then p.value.timerBonus.value else s.timerBonus)
  {
    match p
    case None => s
    case Some(q) =>
      Settings(
        if Accepted(q.rounds, 0, 16) then q.rounds.value else s.rounds,
        q.timerEnabled,
        if Accepted(q.timerLength, 0, 100 * 60 * 1000) then q.timerLength.value else s.timerLength,
        if Accepted(q.timerBonus, 0, 61 * 1000) then q.timerBonus.value else s.timerBonus)
  }

  lemma DefaultInRange()
    ensures InRange(DefaultSettings)
  {
  }

  /** An update never takes a setting out of its range. */
  lemma ApplyKeepsRange(s: Settings, p: Option<SettingsPayload>)
    requires InRange(s)
    ensures InRange(ApplySettings(s, p))
  {
  }

  /** Sending the same payload twice has the effect of sending it once. */
  lemma ApplyIdempotent(s: Settings, p: Option<SettingsPayload>)
    ensures ApplySettings(ApplySettings(s, p), p) == ApplySettings(s, p)
  {
  }

  /** Out-of-range numbers are ignored: a payload whose numbers are all out of range changes
      only the timer switch. */
  lemma RejectedNumbersIgnored(s: Settings, q: SettingsPayload)
    requires !Accepted(q.rounds, 0, 16) && !Accepted(q.timerLength, 0, 100 * 60 * 1000)
    requires !Accepted(q.timerBonus, 0, 61 * 1000)
    ensures ApplySettings(s, Some(q)) == s.(timerEnabled := q.timerEnabled)
  {
  }
}
