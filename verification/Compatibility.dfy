/**
 * Who may be paired with whom: the hard filters of compatibility.ts, which
 * never relax, and the relaxation ladder of relax.ts.
 */
module Compatibility {
  import opened Wrappers

  type DeviceId = nat

  datatype Gender = Male | Female | Other | Unspecified

  datatype GenderFilter = AllGenders | OnlyGender(gender: Gender)

  datatype Profile = Profile(gender: Gender, language: string, topics: seq<string>)

  /** `languageFilter` is "any" or a language code. */
  datatype Preferences = Preferences(genderFilter: GenderFilter, languageFilter: string)

  datatype Candidate = Candidate(deviceId: DeviceId, profile: Profile, preferences: Preferences)

  /** Times in milliseconds. */
  datatype Ladder = Ladder(relaxTopicsAfterMs: nat, relaxLanguageAfterMs: nat, lowPriorityDelayMs: nat)

  const ANY_LANGUAGE := "any"

  /** The step of a low-priority device that may not be matched yet. */
  const HELD: int := -1
  const MAX_STEP: int := 2

  function ToLower(c: char): char {
    if 'A' <= c <= 'Z' then (c as int - 'A' as int + 'a' as int) as char else c
  }

  /** "en-US" -> "en". */
  function PrimaryLanguage(code: string): string {
    if code == [] || code[0] == '-' then [] else [ToLower(code[0])] + PrimaryLanguage(code[1..])
  }

  /** Does `a` accept `b` as a partner? One direction only. */
  predicate Accepts(a: Candidate, b: Candidate) {
    && (a.preferences.genderFilter.OnlyGender? ==> a.preferences.genderFilter.gender == b.profile.gender)
    && (a.preferences.languageFilter != ANY_LANGUAGE && a.preferences.languageFilter != b.profile.language ==>
          PrimaryLanguage(a.preferences.languageFilter) == PrimaryLanguage(b.profile.language))
  }

  predicate IsCompatible(a: Candidate, b: Candidate) {
    a.deviceId != b.deviceId && Accepts(a, b) && Accepts(b, a)
  }

  /** The ladder step after waiting `waitedMs`, or HELD while a low-priority device is held back. */
  function RelaxStep(waitedMs: int, ladder: Ladder, lowPriority: bool): (step: int)
    ensures HELD <= step <= MAX_STEP
  {
    var effective := waitedMs - if lowPriority then ladder.lowPriorityDelayMs else 0;
    if effective < 0 then HELD
    else if effective < ladder.relaxTopicsAfterMs then 0
    else if effective < ladder.relaxLanguageAfterMs then 1
    else MAX_STEP
  }

  predicate SharesTopic(a: Profile, b: Profile) {
    exists t | t in a.topics :: t in b.topics
  }

  /** Soft preferences for a pair judged at `step`. */
  predicate MeetsPreferences(a: Candidate, b: Candidate, step: int) {
    if step == HELD then false
    else if step >= MAX_STEP then true
    else
      var filtered := a.preferences.languageFilter != ANY_LANGUAGE || b.preferences.languageFilter != ANY_LANGUAGE;
      && (filtered || PrimaryLanguage(a.profile.language) == PrimaryLanguage(b.profile.language))
      && (step == 0 ==> SharesTopic(a.profile, b.profile))
  }

  /** The step a pair is judged at: HELD if either side is held, else the more relaxed one. */
  function PairStep(stepA: int, stepB: int): int {
    if stepA == HELD || stepB == HELD then HELD else Max(stepA, stepB)
  }

  /** Hard and soft rules together, for two waiters at their own steps. */
  predicate Fits(a: Candidate, b: Candidate, stepA: int, stepB: int) {
    var step := PairStep(stepA, stepB);
    step != HELD && IsCompatible(a, b) && MeetsPreferences(a, b, step)
  }

  lemma FitsIsSymmetric(a: Candidate, b: Candidate, stepA: int, stepB: int)
    ensures Fits(a, b, stepA, stepB) == Fits(b, a, stepB, stepA)
  {
    assert SharesTopic(a.profile, b.profile) == SharesTopic(b.profile, a.profile) by {
      if t :| t in a.profile.topics && t in b.profile.topics {
        assert t in b.profile.topics;
      }
    }
  }

  /** Waiting longer never takes a pair apart: steps only rise, and a higher step asks for less. */
  lemma FitsIsMonotone(a: Candidate, b: Candidate, stepA: int, stepB: int, stepA': int, stepB': int)
    requires HELD <= stepA <= stepA' && HELD <= stepB <= stepB'
    requires Fits(a, b, stepA, stepB)
    ensures Fits(a, b, stepA', stepB')
  {
    var step, step' := PairStep(stepA, stepB), PairStep(stepA', stepB');
    assert 0 <= step <= step';
  }

  /** So two waiters who may be matched may be matched at any later time, whatever the ladder. */
  lemma WaitingNeverPartsPair(a: Candidate, b: Candidate, waitedA: int, waitedB: int, waitedA': int, waitedB': int,
                              lowA: bool, lowB: bool, ladder: Ladder)
    requires waitedA <= waitedA' && waitedB <= waitedB'
    requires Fits(a, b, RelaxStep(waitedA, ladder, lowA), RelaxStep(waitedB, ladder, lowB))
    ensures Fits(a, b, RelaxStep(waitedA', ladder, lowA), RelaxStep(waitedB', ladder, lowB))
  {
    FitsIsMonotone(a, b, RelaxStep(waitedA, ladder, lowA), RelaxStep(waitedB, ladder, lowB),
                   RelaxStep(waitedA', ladder, lowA), RelaxStep(waitedB', ladder, lowB));
  }

  /**
   * Nobody is excluded for good: once both have waited out the ladder (and the
   * low-priority hold), the hard rules alone decide.
   */
  lemma LadderEndsAtHardRules(a: Candidate, b: Candidate, waitedA: int, waitedB: int, lowA: bool, lowB: bool, ladder: Ladder)
    requires waitedA >= ladder.lowPriorityDelayMs + Max(ladder.relaxTopicsAfterMs, ladder.relaxLanguageAfterMs)
    requires waitedB >= ladder.lowPriorityDelayMs
    ensures Fits(a, b, RelaxStep(waitedA, ladder, lowA), RelaxStep(waitedB, ladder, lowB)) <==> IsCompatible(a, b)
  {
  }

  /* ---------------------------------------------------------------- */
  /* What the rules ask of two users, field by field                   */
  /* ---------------------------------------------------------------- */

  /** `p` is the part of a language code in front of its first hyphen, in lower case. */
  ghost predicate IsPrimary(code: string, p: string) {
    && |p| <= |code| && (|p| < |code| ==> code[|p|] == '-')
    && forall i :: 0 <= i < |p| ==> code[i] != '-' && (if 'A' <= code[i] <= 'Z' then p[i] as int == code[i] as int + 32 else p[i] == code[i])
  }

  lemma {:induction false} PrimaryIsPrimary(code: string)
    ensures IsPrimary(code, PrimaryLanguage(code))
  {
    if code != [] && code[0] != '-' {
      PrimaryIsPrimary(code[1..]);
      var p, rest := PrimaryLanguage(code), PrimaryLanguage(code[1..]);
      forall i | 0 <= i < |p|
        ensures code[i] != '-' && (if 'A' <= code[i] <= 'Z' then p[i] as int == code[i] as int + 32 else p[i] == code[i])
      {
        assert i > 0 ==> p[i] == rest[i - 1] && code[i] == code[1..][i - 1];
      }
    }
  }

  lemma OnePrimary(code: string, p: string, q: string)
    requires IsPrimary(code, p) && IsPrimary(code, q)
    ensures p == q
  {
    assert !(|p| < |q|) && !(|q| < |p|);
    forall i | 0 <= i < |p| ensures p[i] == q[i] {
    }
  }

  /** Two codes name one language. */
  ghost predicate SameLanguage(x: string, y: string) {
    exists p :: IsPrimary(x, p) && IsPrimary(y, p)
  }

  lemma SameLanguageIff(x: string, y: string)
    ensures SameLanguage(x, y) <==> PrimaryLanguage(x) == PrimaryLanguage(y)
  {
    PrimaryIsPrimary(x);
    PrimaryIsPrimary(y);
    if p :| IsPrimary(x, p) && IsPrimary(y, p) {
      OnePrimary(x, p, PrimaryLanguage(x));
      OnePrimary(y, p, PrimaryLanguage(y));
    }
  }

  /** The user's filters let this profile in: its gender, and its language exactly or by its primary part. */
  ghost predicate Wants(preferences: Preferences, profile: Profile) {
    && (preferences.genderFilter == AllGenders || preferences.genderFilter == OnlyGender(profile.gender))
    && (preferences.languageFilter == ANY_LANGUAGE || preferences.languageFilter == profile.language
        || SameLanguage(preferences.languageFilter, profile.language))
  }

  /** How long a user has waited on the ladder; a low-priority one is held until the delay is over. */
  function OnLadder(waitedMs: int, ladder: Ladder, lowPriority: bool): int {
    if lowPriority then waitedMs - ladder.lowPriorityDelayMs else waitedMs
  }

  /**
   * Neither is held back, and the longer wait of the two decides what they must
   * have in common: a topic at first, and a language for longer, unless one of
   * them chose a language.
   */
  ghost predicate LadderLets(a: Candidate, b: Candidate, waitA: int, waitB: int, ladder: Ladder) {
    && 0 <= waitA && 0 <= waitB
    && (waitA < ladder.relaxTopicsAfterMs && waitB < ladder.relaxTopicsAfterMs ==>
          exists t :: t in a.profile.topics && t in b.profile.topics)
    && ((waitA < ladder.relaxTopicsAfterMs && waitB < ladder.relaxTopicsAfterMs)
        || (waitA < ladder.relaxLanguageAfterMs && waitB < ladder.relaxLanguageAfterMs) ==>
          || a.preferences.languageFilter != ANY_LANGUAGE || b.preferences.languageFilter != ANY_LANGUAGE
          || SameLanguage(a.profile.language, b.profile.language))
  }

  /** The rules in full: two devices, each wanting the other, that the ladder lets meet. */
  ghost predicate MayMeet(a: Candidate, b: Candidate, waitA: int, waitB: int, ladder: Ladder) {
    a.deviceId != b.deviceId && Wants(a.preferences, b.profile) && Wants(b.preferences, a.profile) && LadderLets(a, b, waitA, waitB, ladder)
  }

  lemma WantsIff(a: Candidate, b: Candidate)
    ensures Accepts(a, b) <==> Wants(a.preferences, b.profile)
  {
    SameLanguageIff(a.preferences.languageFilter, b.profile.language);
  }

  lemma LadderLetsIff(a: Candidate, b: Candidate, waitA: int, waitB: int, ladder: Ladder)
    ensures var step := PairStep(RelaxStep(waitA, ladder, false), RelaxStep(waitB, ladder, false));
      step != HELD && MeetsPreferences(a, b, step) <==> LadderLets(a, b, waitA, waitB, ladder)
  {
    SameLanguageIff(a.profile.language, b.profile.language);
  }

  /** Two users fit after waiting so long exactly when the rules let them meet. */
  lemma FitsIff(a: Candidate, b: Candidate, waitedA: int, waitedB: int, lowA: bool, lowB: bool, ladder: Ladder)
    ensures Fits(a, b, RelaxStep(waitedA, ladder, lowA), RelaxStep(waitedB, ladder, lowB)) <==>
            MayMeet(a, b, OnLadder(waitedA, ladder, lowA), OnLadder(waitedB, ladder, lowB), ladder)
  {
    var waitA, waitB := OnLadder(waitedA, ladder, lowA), OnLadder(waitedB, ladder, lowB);
    assert RelaxStep(waitedA, ladder, lowA) == RelaxStep(waitA, ladder, false);
    assert RelaxStep(waitedB, ladder, lowB) == RelaxStep(waitB, ladder, false);
    WantsIff(a, b);
    WantsIff(b, a);
    LadderLetsIff(a, b, waitA, waitB, ladder);
  }
}
