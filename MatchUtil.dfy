/** Helpers that display a match result (src/utils/match.js): the total score
    including overtime, and the suffix that says how the match was decided. */
module MatchUtil {
  import opened Js

  /** `{ teamA, teamB }` goal counts; a missing count is None. */
  datatype TeamGoals = TeamGoals(teamA: Option<int>, teamB: Option<int>)

  /** `penalty_shootout`: the goal fields are Some only when they are numbers. */
  datatype Shootout = Shootout(teamAGoals: Option<int>, teamBGoals: Option<int>)

  datatype MatchEvent = MatchEvent(minute: Option<int>)

  /** The fields of a match record the helpers read; `events` is None when it
      is missing or not an array. */
  datatype MatchRecord = MatchRecord(
    score: Option<TeamGoals>,
    overtimeScore: Option<TeamGoals>,
    penaltyShootout: Option<Shootout>,
    resultType: Option<string>,
    events: Option<seq<MatchEvent>>)

  /** `totalScore`'s result: `{ a: '-', b: '-' }` without a match, else the goal sums. */
  datatype Total = NoMatch | Goals(a: int, b: int)

  const Penalties: string := "penalties"
  const Overtime: string := "overtime"
  /** Minutes after this one are played in overtime. */
  const RegularMinutes: int := 40
  /** The separator between the two shootout counts (U+2013, an en dash). */
  const EnDash: char := '\U{2013}'

  /** `x ?? 0` */
  function OrZero(n: Option<int>): int
  {
    if n.Some? then n.value else 0
  }

  /** `m?.<part>?.teamA ?? 0` */
  function GoalsA(part: Option<TeamGoals>): int
  {
    if part.Some? then OrZero(part.value.teamA) else 0
  }

  /** `m?.<part>?.teamB ?? 0` */
  function GoalsB(part: Option<TeamGoals>): int
  {
    if part.Some? then OrZero(part.value.teamB) else 0
  }

  function TotalScore(m: Option<MatchRecord>): Total
  {
    if m.None? then NoMatch
    else
      var r := m.value;
      Goals(GoalsA(r.score) + GoalsA(r.overtimeScore), GoalsB(r.score) + GoalsB(r.overtimeScore))
  }

  /** Without a match the total is the dash pair; with one it is the regular
      goals plus the overtime goals, missing parts counting as zero. */
  lemma TotalScoreProperties(m: Option<MatchRecord>)
    ensures TotalScore(m).NoMatch? <==> m.None?
    ensures m.Some? && m.value.overtimeScore.None? ==>
      TotalScore(m) == Goals(GoalsA(m.value.score), GoalsB(m.value.score))
    ensures m.Some? && m.value.score.None? ==>
      TotalScore(m) == Goals(GoalsA(m.value.overtimeScore), GoalsB(m.value.overtimeScore))
    ensures m.Some? ==>
      && TotalScore(m).a - GoalsA(m.value.overtimeScore) == GoalsA(m.value.score)
      && TotalScore(m).b - GoalsB(m.value.overtimeScore) == GoalsB(m.value.score)
  {
  }

  /** A shootout is recorded and both of its goal counts are numbers. */
  predicate HasShootoutGoals(r: MatchRecord)
  {
    r.penaltyShootout.Some? && r.penaltyShootout.value.teamAGoals.Some? && r.penaltyShootout.value.teamBGoals.Some?
  }

  /** The events are a list and some event happened after the regular minutes
      (an event without a minute counts as minute 0). */
  predicate HasOvertimeEvent(r: MatchRecord)
  {
    r.events.Some? && exists i :: 0 <= i < |r.events.value| && OrZero(r.events.value[i].minute) > RegularMinutes
  }

  /** The conditions under which a match went to extra time. */
  predicate WentToExtraTime(r: MatchRecord)
  {
    r.resultType == Some(Overtime)
    || GoalsA(r.overtimeScore) + GoalsB(r.overtimeScore) > 0
    || HasOvertimeEvent(r)
  }

  /** `"P " + A + "–" + B` */
  function ShootoutSuffix(a: int, b: int): string
  {
    "P " + IntToString(a) + [EnDash] + IntToString(b)
  }

  /** `resultSuffix`: the first rule that applies wins. These are a shootout
      with both counts numeric, then `result_type === 'penalties'`, then extra
      time. If none applies the suffix is empty. */
  function ResultSuffix(m: Option<MatchRecord>): (s: string)
    ensures s == "" || s == "P" || s == "AET" || (|s| > 2 && s[..2] == "P ")
  {
    if m.None? then ""
    else
      var r := m.value;
      if HasShootoutGoals(r) then
        ShootoutSuffix(r.penaltyShootout.value.teamAGoals.value, r.penaltyShootout.value.teamBGoals.value)
      else if r.resultType == Some(Penalties) then "P"
      else if WentToExtraTime(r) then "AET"
      else ""
  }

  /** A shootout with numeric counts decides the suffix, whatever else is set. */
  lemma ShootoutTakesPrecedence(r: MatchRecord)
    requires HasShootoutGoals(r)
    ensures ResultSuffix(Some(r)) ==
      ShootoutSuffix(r.penaltyShootout.value.teamAGoals.value, r.penaltyShootout.value.teamBGoals.value)
  {
  }

  /** The three later rules, each applying only when the earlier ones do not. */
  lemma LaterRules(r: MatchRecord)
    requires !HasShootoutGoals(r)
    ensures ResultSuffix(Some(r)) == "P" <==> r.resultType == Some(Penalties)
    ensures ResultSuffix(Some(r)) == "AET" <==> r.resultType != Some(Penalties) && WentToExtraTime(r)
    ensures ResultSuffix(Some(r)) == "" <==> r.resultType != Some(Penalties) && !WentToExtraTime(r)
    ensures ResultSuffix(None) == ""
  {
  }

  /** An event past minute 40 marks extra time; an event without a minute counts as minute 0. */
  lemma LateEventMeansExtraTime(r: MatchRecord, i: nat)
    requires !HasShootoutGoals(r) && r.resultType != Some(Penalties)
    requires r.events.Some? && i < |r.events.value| && OrZero(r.events.value[i].minute) > RegularMinutes
    ensures ResultSuffix(Some(r)) == "AET"
  {
  }

  /** The digits of a rendered number never contain the en dash. */
  lemma NoDashInNumber(n: int)
    ensures EnDash !in IntToString(n)
  {
    var s := IntToString(n);
    forall k | 0 <= k < |s|
      ensures s[k] != EnDash
    {
      if k > 0 {
        assert IsDigit(s[k]);
      } else if n >= 0 {
        assert IsDigit(NatToString(n)[0]);
      }
    }
  }

  /** Two strings split at their first en dash: the parts before it agree, and so do the rest. */
  lemma SplitAtDash(x1: string, y1: string, x2: string, y2: string)
    requires EnDash !in x1 && EnDash !in x2
    requires x1 + [EnDash] + y1 == x2 + [EnDash] + y2
    ensures x1 == x2 && y1 == y2
  {
    var t := x1 + [EnDash] + y1;
    assert t[|x1|] == EnDash;
    assert t[|x2|] == EnDash;
    if |x1| != |x2| {
      // the shorter part's dash would fall inside the longer part
      assert false;
    }
    assert x1 == t[..|x1|] == x2;
    assert y1 == t[|x1| + 1..] == y2;
  }

  /** The shootout suffix shows the score unambiguously: equal suffixes come
      from equal goal counts. */
  lemma ShootoutSuffixInjective(a1: int, b1: int, a2: int, b2: int)
    requires ShootoutSuffix(a1, b1) == ShootoutSuffix(a2, b2)
    ensures a1 == a2 && b1 == b2
  {
    var r1 := IntToString(a1) + [EnDash] + IntToString(b1);
    var r2 := IntToString(a2) + [EnDash] + IntToString(b2);
    assert ShootoutSuffix(a1, b1) == "P " + r1;
    assert ShootoutSuffix(a2, b2) == "P " + r2;
    assert r1 == ShootoutSuffix(a1, b1)[2..] == r2;
    NoDashInNumber(a1);
    NoDashInNumber(a2);
    SplitAtDash(IntToString(a1), IntToString(b1), IntToString(a2), IntToString(b2));
    IntToStringInjective(a1, a2);
    IntToStringInjective(b1, b2);
  }
}
