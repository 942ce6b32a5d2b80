/** The retention sweep over a tenant's call records (apps/api/parlio_api/compliance.py). */
module Retention {
  import opened Clock

  /** Days are positive and grow from recordings to transcripts to whole calls. */
  datatype PolicyFields = PolicyFields(transcriptDays: int, recordingDays: int, callDays: int, maskCaller: bool)
  type Policy = p: PolicyFields | 1 <= p.recordingDays <= p.transcriptDays <= p.callDays <= 3650
    witness PolicyFields(90, 30, 365, false)

  const REDACTED := "[redacted by retention policy]"

  /** A call record; an empty `summary` stands for none. */
  datatype Call = Call(id: string, startedAt: int, caller: string, transcript: seq<string>, summary: string,
                       extracted: map<string, string>, recordings: seq<string>)

  function Mask(e164: string): string {
    if |e164| > 6 then e164[..|e164| - 6] + "******" else if e164 == "" then "" else "******"
  }

  predicate Masked(e164: string) {
    '*' in e164
  }

  /** No full number to be read. */
  predicate Hidden(e164: string) {
    e164 == "" || Masked(e164)
  }

  /** At most this many of the newest old calls are looked at in one sweep. */
  const SWEEP_LIMIT := 5000

  predicate Purged(p: Policy, c: Call, now: int) {
    c.startedAt < now - p.callDays * DAY
  }

  /** Old enough to be looked at. */
  predicate Old(p: Policy, c: Call, now: int) {
    c.startedAt < now - Min(p.transcriptDays, p.recordingDays) * DAY
  }

  predicate LosesRecordings(p: Policy, c: Call, now: int) {
    now - c.startedAt > p.recordingDays * DAY && c.recordings != []
  }

  predicate LosesText(p: Policy, c: Call, now: int) {
    now - c.startedAt > p.transcriptDays * DAY && (c.transcript != [] || c.summary != "")
  }

  function WithoutText(p: Policy, c: Call): Call {
    Call(c.id, c.startedAt, if p.maskCaller && c.caller != "" && !Masked(c.caller) then Mask(c.caller) else c.caller,
         [], if c.summary != "" then REDACTED else "", map[], c.recordings)
  }

  function Redact(p: Policy, c: Call, now: int): Call {
    var kept := if LosesText(p, c, now) then WithoutText(p, c) else c;
    if LosesRecordings(p, c, now) then kept.(recordings := []) else kept
  }

  /** Calls not yet old enough to be purged. */
  function Kept(p: Policy, calls: seq<Call>, now: int): (r: seq<Call>)
    ensures forall c | c in r :: !Purged(p, c, now)
  {
    if calls == [] then []
    else (if Purged(p, calls[0], now) then [] else [calls[0]]) + Kept(p, calls[1..], now)
  }

  /** Exactly the calls no older than the limit survive, each as often as before and in the same order. */
  lemma {:induction false} KeptExactly(p: Policy, calls: seq<Call>, now: int)
    ensures forall c :: multiset(Kept(p, calls, now))[c] == if now - c.startedAt <= p.callDays * DAY then multiset(calls)[c] else 0
  {
    if calls != [] {
      KeptExactly(p, calls[1..], now);
      assert calls == [calls[0]] + calls[1..];
    }
  }

  lemma {:induction false} KeptInOrder(p: Policy, front: seq<Call>, back: seq<Call>, now: int)
    ensures Kept(p, front + back, now) == Kept(p, front, now) + Kept(p, back, now)
  {
    if front == [] {
      assert front + back == back;
    } else {
      assert (front + back)[0] == front[0] && (front + back)[1..] == front[1..] + back;
      KeptInOrder(p, front[1..], back, now);
    }
  }

  /** Going through a list of calls, newest first, redacting at most `left` of the old ones. */
  function RedactOld(p: Policy, calls: seq<Call>, now: int, left: nat): seq<Call> {
    if calls == [] then []
    else if Old(p, calls[0], now) && left > 0 then
      [Redact(p, calls[0], now)] + RedactOld(p, calls[1..], now, left - 1)
    else [calls[0]] + RedactOld(p, calls[1..], now, left)
  }

  /** How many of the calls gone through lose their recordings. */
  function RecordingsLost(p: Policy, calls: seq<Call>, now: int, left: nat): nat {
    if calls == [] then 0
    else if Old(p, calls[0], now) && left > 0 then
      (if LosesRecordings(p, calls[0], now) then 1 else 0) + RecordingsLost(p, calls[1..], now, left - 1)
    else RecordingsLost(p, calls[1..], now, left)
  }

  /** How many lose their words. */
  function TextsLost(p: Policy, calls: seq<Call>, now: int, left: nat): nat {
    if calls == [] then 0
    else if Old(p, calls[0], now) && left > 0 then
      (if LosesText(p, calls[0], now) then 1 else 0) + TextsLost(p, calls[1..], now, left - 1)
    else TextsLost(p, calls[1..], now, left)
  }

  /** A sweep purges, then goes through the rest. */
  function Sweep(p: Policy, calls: seq<Call>, now: int): seq<Call> {
    RedactOld(p, Kept(p, calls, now), now, SWEEP_LIMIT)
  }

  /** No recording, transcript or summary is left that should have gone. */
  predicate Clean(p: Policy, c: Call, now: int) {
    && !Purged(p, c, now)
    && (now - c.startedAt > p.recordingDays * DAY ==> c.recordings == [])
    && (now - c.startedAt > p.transcriptDays * DAY ==> c.transcript == [] && (c.summary == "" || c.summary == REDACTED))
  }

  lemma RedactedIsClean(p: Policy, c: Call, now: int)
    requires !Purged(p, c, now)
    ensures Old(p, c, now) ==> Clean(p, Redact(p, c, now), now)
    ensures !Old(p, c, now) ==> Redact(p, c, now) == c && Clean(p, c, now)
  {
  }

  /** What has not reached its age is kept: words, details and caller till the one, recordings till the other. */
  lemma YoungIsKept(p: Policy, c: Call, now: int)
    ensures var r := Redact(p, c, now);
      && r.id == c.id && r.startedAt == c.startedAt
      && (now - c.startedAt <= p.transcriptDays * DAY ==>
            r.transcript == c.transcript && r.summary == c.summary && r.extracted == c.extracted && r.caller == c.caller)
      && (now - c.startedAt <= p.recordingDays * DAY ==> r.recordings == c.recordings)
  {
  }

  /** Past its age a summary gives way to the notice, and none to none; a caller is masked only where that is asked for. */
  lemma OldIsReplaced(p: Policy, c: Call, now: int)
    requires now - c.startedAt > p.transcriptDays * DAY
    ensures var r := Redact(p, c, now);
      && r.transcript == [] && r.summary == (if c.summary == "" then "" else "[redacted by retention policy]")
      && (r.caller == c.caller || (p.maskCaller && !Masked(c.caller) && r.caller == Mask(c.caller)))
  {
  }

  /** Masking hides the last six characters, or everything of a number that has no more. */
  lemma MaskHidesTheEnd(e164: string)
    requires e164 != ""
    ensures |e164| > 6 ==> |Mask(e164)| == |e164| && Mask(e164)[..|e164| - 6] == e164[..|e164| - 6]
    ensures |e164| <= 6 ==> |Mask(e164)| == 6
    ensures forall k | |Mask(e164)| - 6 <= k < |Mask(e164)| :: Mask(e164)[k] == '*'
  {
  }

  /** Past the age for transcripts the caller is hidden exactly when it was already, or there were words to redact. */
  lemma MaskedWithWords(p: Policy, c: Call, now: int)
    requires p.maskCaller && now - c.startedAt > p.transcriptDays * DAY
    ensures Hidden(Redact(p, c, now).caller) <==> Hidden(c.caller) || c.transcript != [] || c.summary != ""
  {
    if LosesText(p, c, now) && c.caller != "" {
      assert Mask(c.caller)[|Mask(c.caller)| - 1] == '*';
    }
  }

  /** Past that age the details extracted from a call are gone exactly when there were none, or there were words to redact. */
  lemma ExtractedWithWords(p: Policy, c: Call, now: int)
    requires now - c.startedAt > p.transcriptDays * DAY
    ensures Redact(p, c, now).extracted == map[] <==> c.extracted == map[] || c.transcript != [] || c.summary != ""
  {
  }

  /** For example: of a missed call, without a word said or summed up, the number is kept until the call is purged. */
  lemma MissedCallKeepsNumber(p: Policy, id: string, startedAt: int, now: int)
    requires p.maskCaller && p.transcriptDays * DAY < now - startedAt <= p.callDays * DAY
    ensures var c := Call(id, startedAt, "+447700900123", [], "", map[], []);
      Sweep(p, [c], now) == [c] && Clean(p, c, now) && !Hidden(c.caller)
  {
    var c := Call(id, startedAt, "+447700900123", [], "", map[], []);
    assert [c][1..] == [] && Kept(p, [c], now) == [c];
    assert RedactOld(p, [c], now, SWEEP_LIMIT) == [c];
  }

  /** Recordings are counted once; a summary, once replaced, is counted again by every later sweep. */
  lemma CountedAgain(p: Policy, c: Call, now: int, later: int)
    requires now <= later
    ensures LosesRecordings(p, c, now) ==> !LosesRecordings(p, Redact(p, c, now), later)
    ensures LosesText(p, c, now) ==> (LosesText(p, Redact(p, c, now), later) <==> c.summary != "")
  {
  }

  /** Redacting later makes up for having redacted earlier. */
  lemma RedactAbsorbs(p: Policy, c: Call, t1: int, t2: int)
    requires t1 <= t2
    ensures Redact(p, Redact(p, c, t1), t2) == Redact(p, c, t2)
  {
  }

  /** How many of the calls a sweep has to look at. */
  function OldOnes(p: Policy, calls: seq<Call>, now: int): nat {
    if calls == [] then 0 else (if Old(p, calls[0], now) then 1 else 0) + OldOnes(p, calls[1..], now)
  }

  function RedactAll(p: Policy, calls: seq<Call>, now: int): seq<Call> {
    if calls == [] then [] else [Redact(p, calls[0], now)] + RedactAll(p, calls[1..], now)
  }

  /** Within the limit, everything that should be redacted is. */
  lemma {:induction false} LimitSuffices(p: Policy, calls: seq<Call>, now: int, left: nat)
    requires OldOnes(p, calls, now) <= left
    ensures RedactOld(p, calls, now, left) == RedactAll(p, calls, now)
  {
    if calls != [] {
      if !Old(p, calls[0], now) {
        YoungIsUntouched(p, calls[0], now);
      }
      LimitSuffices(p, calls[1..], now, if Old(p, calls[0], now) then left - 1 else left);
    }
  }

  lemma YoungIsUntouched(p: Policy, c: Call, now: int)
    requires !Old(p, c, now)
    ensures Redact(p, c, now) == c
  {
  }

  /** Among the old calls that a pass looks at. */
  predicate Reached(p: Policy, calls: seq<Call>, now: int, left: nat, i: nat)
    requires i < |calls|
  {
    Old(p, calls[i], now) && OldOnes(p, calls[..i], now) < left
  }

  /** A pass leaves everything clean exactly when what it does not reach is clean already. */
  lemma {:induction false} PassCleans(p: Policy, calls: seq<Call>, now: int, left: nat)
    requires forall c | c in calls :: !Purged(p, c, now)
    ensures (forall c | c in RedactOld(p, calls, now, left) :: Clean(p, c, now))
            <==> forall i | 0 <= i < |calls| && !Reached(p, calls, now, left, i) :: Clean(p, calls[i], now)
  {
    if calls != [] {
      var c, rest := calls[0], calls[1..];
      var looks := Old(p, c, now) && left > 0;
      var after := if looks then left - 1 else left;
      PassCleans(p, rest, now, after);
      RedactedIsClean(p, c, now);
      assert calls[..0] == [];
      var first := if looks then Redact(p, c, now) else c;
      assert RedactOld(p, calls, now, left) == [first] + RedactOld(p, rest, now, after);
      assert Clean(p, first, now) <==> Reached(p, calls, now, left, 0) || Clean(p, c, now);
      forall i | 0 <= i < |rest|
        ensures Reached(p, calls, now, left, i + 1) <==> Reached(p, rest, now, after, i)
      {
        ReachedNext(p, calls, now, left, i);
      }
      assert (forall i | 0 <= i < |calls| && !Reached(p, calls, now, left, i) :: Clean(p, calls[i], now)) <==>
        (Reached(p, calls, now, left, 0) || Clean(p, c, now))
        && forall i | 0 <= i < |rest| && !Reached(p, rest, now, after, i) :: Clean(p, rest[i], now) by {
        assert forall i | 0 <= i < |rest| :: rest[i] == calls[i + 1];
        assert forall i | 0 < i < |calls| :: calls[i] == rest[i - 1] && (Reached(p, calls, now, left, i) <==> Reached(p, rest, now, after, i - 1));
      }
    }
  }

  lemma ReachedNext(p: Policy, calls: seq<Call>, now: int, left: nat, i: nat)
    requires i + 1 < |calls|
    ensures Reached(p, calls, now, left, i + 1)
            <==> Reached(p, calls[1..], now, if Old(p, calls[0], now) && left > 0 then left - 1 else left, i)
  {
    assert calls[..i + 1][0] == calls[0] && calls[..i + 1][1..] == calls[1..][..i];
  }

  /**
   After a sweep no surviving call keeps a recording, transcript or summary that its age forbids,
   exactly when every old call beyond the limit was clean before.
   */
  lemma SweepLeavesNothingBehind(p: Policy, calls: seq<Call>, now: int)
    ensures (forall c | c in Sweep(p, calls, now) :: Clean(p, c, now)) <==> BeyondIsClean(p, Kept(p, calls, now), now, SWEEP_LIMIT)
  {
    PassCleans(p, Kept(p, calls, now), now, SWEEP_LIMIT);
    YoungAreClean(p, Kept(p, calls, now), now, SWEEP_LIMIT);
  }

  /** Every old call behind `left` other old ones is clean. */
  predicate BeyondIsClean(p: Policy, calls: seq<Call>, now: int, left: nat) {
    forall i | 0 <= i < |calls| && Old(p, calls[i], now) && left <= OldOnes(p, calls[..i], now) :: Clean(p, calls[i], now)
  }

  lemma YoungAreClean(p: Policy, calls: seq<Call>, now: int, left: nat)
    requires forall c | c in calls :: !Purged(p, c, now)
    ensures (forall i | 0 <= i < |calls| && !Reached(p, calls, now, left, i) :: Clean(p, calls[i], now))
            <==> BeyondIsClean(p, calls, now, left)
  {
    forall i | 0 <= i < |calls| && !Old(p, calls[i], now)
      ensures Clean(p, calls[i], now)
    {
      assert calls[i] in calls;
      RedactedIsClean(p, calls[i], now);
    }
    if BeyondIsClean(p, calls, now, left) {
      forall i | 0 <= i < |calls| && !Reached(p, calls, now, left, i)
        ensures Clean(p, calls[i], now)
      {
        assert Old(p, calls[i], now) ==> left <= OldOnes(p, calls[..i], now);
      }
    } else {
      var i :| 0 <= i < |calls| && Old(p, calls[i], now) && left <= OldOnes(p, calls[..i], now) && !Clean(p, calls[i], now);
      assert !Reached(p, calls, now, left, i);
    }
  }

  /** Within the limit callers are hidden just as masking hides them, call by call. */
  lemma SweepMasks(p: Policy, calls: seq<Call>, now: int)
    requires p.maskCaller && OldOnes(p, Kept(p, calls, now), now) <= SWEEP_LIMIT
    ensures var kept, swept := Kept(p, calls, now), Sweep(p, calls, now);
      && |swept| == |kept|
      && forall i | 0 <= i < |kept| && now - kept[i].startedAt > p.transcriptDays * DAY ::
           Hidden(swept[i].caller) <==> Hidden(kept[i].caller) || kept[i].transcript != [] || kept[i].summary != ""
  {
    var kept := Kept(p, calls, now);
    LimitSuffices(p, kept, now, SWEEP_LIMIT);
    RedactAllAt(p, kept, now);
    forall i | 0 <= i < |kept| && now - kept[i].startedAt > p.transcriptDays * DAY
      ensures Hidden(Redact(p, kept[i], now).caller) <==>
        Hidden(kept[i].caller) || kept[i].transcript != [] || kept[i].summary != ""
    {
      MaskedWithWords(p, kept[i], now);
    }
  }

  /** And details extracted go just as redacting takes them, call by call. */
  lemma SweepForgets(p: Policy, calls: seq<Call>, now: int)
    requires OldOnes(p, Kept(p, calls, now), now) <= SWEEP_LIMIT
    ensures var kept, swept := Kept(p, calls, now), Sweep(p, calls, now);
      && |swept| == |kept|
      && forall i | 0 <= i < |kept| && now - kept[i].startedAt > p.transcriptDays * DAY ::
           swept[i].extracted == map[] <==> kept[i].extracted == map[] || kept[i].transcript != [] || kept[i].summary != ""
  {
    var kept := Kept(p, calls, now);
    LimitSuffices(p, kept, now, SWEEP_LIMIT);
    RedactAllAt(p, kept, now);
    forall i | 0 <= i < |kept| && now - kept[i].startedAt > p.transcriptDays * DAY
      ensures Redact(p, kept[i], now).extracted == map[] <==>
        kept[i].extracted == map[] || kept[i].transcript != [] || kept[i].summary != ""
    {
      ExtractedWithWords(p, kept[i], now);
    }
  }

  lemma {:induction false} RedactAllAt(p: Policy, calls: seq<Call>, now: int)
    ensures |RedactAll(p, calls, now)| == |calls|
    ensures forall i | 0 <= i < |calls| :: RedactAll(p, calls, now)[i] == Redact(p, calls[i], now)
  {
    if calls != [] {
      RedactAllAt(p, calls[1..], now);
    }
  }

  /** Whatever the limit, a sweep takes nothing from a call that has not reached the age for it, and no call but the purged. */
  lemma SweepKeepsYoung(p: Policy, calls: seq<Call>, now: int)
    ensures var kept, swept := Kept(p, calls, now), Sweep(p, calls, now);
      && |swept| == |kept|
      && forall i | 0 <= i < |kept| ::
           && swept[i].id == kept[i].id && swept[i].startedAt == kept[i].startedAt
           && (now - kept[i].startedAt <= p.transcriptDays * DAY ==>
                 && swept[i].transcript == kept[i].transcript && swept[i].summary == kept[i].summary
                 && swept[i].extracted == kept[i].extracted && swept[i].caller == kept[i].caller)
           && (now - kept[i].startedAt <= p.recordingDays * DAY ==> swept[i].recordings == kept[i].recordings)
  {
    var kept := Kept(p, calls, now);
    RedactOldAt(p, kept, now, SWEEP_LIMIT);
    forall i | 0 <= i < |kept|
      ensures var s := Sweep(p, calls, now)[i]; s == kept[i] || s == Redact(p, kept[i], now)
    {
    }
    forall i | 0 <= i < |kept|
      ensures YoungKeeps(p, kept[i], Redact(p, kept[i], now), now)
    {
      YoungIsKept(p, kept[i], now);
    }
  }

  ghost predicate YoungKeeps(p: Policy, c: Call, r: Call, now: int) {
    && r.id == c.id && r.startedAt == c.startedAt
    && (now - c.startedAt <= p.transcriptDays * DAY ==>
          r.transcript == c.transcript && r.summary == c.summary && r.extracted == c.extracted && r.caller == c.caller)
    && (now - c.startedAt <= p.recordingDays * DAY ==> r.recordings == c.recordings)
  }

  /** For how many of the first `n` places something holds. */
  ghost function HowMany(n: nat, holds: nat -> bool): nat {
    if n == 0 then 0 else HowMany(n - 1, holds) + (if holds(n - 1) then 1 else 0)
  }

  lemma {:induction false} HowManyFromFront(n: nat, holds: nat -> bool, next: nat -> bool)
    requires forall k: nat | k < n :: next(k) == holds(k + 1)
    ensures HowMany(n + 1, holds) == (if holds(0) then 1 else 0) + HowMany(n, next)
  {
    if n > 0 {
      HowManyFromFront(n - 1, holds, next);
    }
  }

  /** A call looked at whose recordings, or whose words, are past their age. */
  ghost predicate RecordingsGo(p: Policy, calls: seq<Call>, now: int, left: nat, i: nat) {
    i < |calls| && Reached(p, calls, now, left, i) && calls[i].startedAt < now - p.recordingDays * DAY && calls[i].recordings != []
  }

  ghost predicate WordsGo(p: Policy, calls: seq<Call>, now: int, left: nat, i: nat) {
    && i < |calls| && Reached(p, calls, now, left, i) && calls[i].startedAt < now - p.transcriptDays * DAY
    && (calls[i].transcript != [] || calls[i].summary != "")
  }

  /** The one counter counts the calls whose recordings go, the other those whose words do. */
  lemma {:induction false} RecordingsCounted(p: Policy, calls: seq<Call>, now: int, left: nat)
    ensures RecordingsLost(p, calls, now, left) == HowMany(|calls|, (i: nat) => RecordingsGo(p, calls, now, left, i))
  {
    if calls != [] {
      var rest, after := calls[1..], if Old(p, calls[0], now) && left > 0 then left - 1 else left;
      RecordingsCounted(p, rest, now, after);
      assert calls[..0] == [];
      forall i: nat | i < |rest|
        ensures RecordingsGo(p, calls, now, left, i + 1) <==> RecordingsGo(p, rest, now, after, i)
      {
        ReachedNext(p, calls, now, left, i);
      }
      HowManyFromFront(|rest|, (i: nat) => RecordingsGo(p, calls, now, left, i), (i: nat) => RecordingsGo(p, rest, now, after, i));
    }
  }

  lemma {:induction false} WordsCounted(p: Policy, calls: seq<Call>, now: int, left: nat)
    ensures TextsLost(p, calls, now, left) == HowMany(|calls|, (i: nat) => WordsGo(p, calls, now, left, i))
  {
    if calls != [] {
      var rest, after := calls[1..], if Old(p, calls[0], now) && left > 0 then left - 1 else left;
      WordsCounted(p, rest, now, after);
      assert calls[..0] == [];
      forall i: nat | i < |rest|
        ensures WordsGo(p, calls, now, left, i + 1) <==> WordsGo(p, rest, now, after, i)
      {
        ReachedNext(p, calls, now, left, i);
      }
      HowManyFromFront(|rest|, (i: nat) => WordsGo(p, calls, now, left, i), (i: nat) => WordsGo(p, rest, now, after, i));
    }
  }

  /** A pass leaves each call as it was, or redacted, in its place. */
  lemma {:induction false} RedactOldAt(p: Policy, calls: seq<Call>, now: int, left: nat)
    ensures |RedactOld(p, calls, now, left)| == |calls|
    ensures forall i | 0 <= i < |calls| ::
      RedactOld(p, calls, now, left)[i] == if Reached(p, calls, now, left, i) then Redact(p, calls[i], now) else calls[i]
  {
    if calls != [] {
      var looks := Old(p, calls[0], now) && left > 0;
      var after := if looks then left - 1 else left;
      RedactOldAt(p, calls[1..], now, after);
      assert calls[..0] == [];
      forall i | 0 < i < |calls|
        ensures Reached(p, calls, now, left, i) <==> Reached(p, calls[1..], now, after, i - 1)
      {
        ReachedNext(p, calls, now, left, i - 1);
      }
    }
  }

  // -- one sweep after another -------------------------------------------------------------------

  /** A sweep with `left` places. */
  function Pass(p: Policy, calls: seq<Call>, now: int, left: nat): seq<Call> {
    RedactOld(p, Kept(p, calls, now), now, left)
  }

  predicate Looked(p: Policy, c: Call, now: int, left: nat) {
    !Purged(p, c, now) && Old(p, c, now) && 0 < left
  }

  lemma PassHead(p: Policy, c: Call, rest: seq<Call>, now: int, left: nat)
    ensures Pass(p, [c] + rest, now, left) ==
      if Purged(p, c, now) then Pass(p, rest, now, left)
      else if Looked(p, c, now, left) then [Redact(p, c, now)] + Pass(p, rest, now, left - 1)
      else [c] + Pass(p, rest, now, left)
  {
    KeptHead(p, c, rest, now);
    var kept := Kept(p, rest, now);
    if !Purged(p, c, now) {
      assert ([c] + kept)[0] == c && ([c] + kept)[1..] == kept;
    }
  }

  lemma KeptHead(p: Policy, c: Call, rest: seq<Call>, now: int)
    ensures Kept(p, [c] + rest, now) == if Purged(p, c, now) then Kept(p, rest, now) else [c] + Kept(p, rest, now)
  {
    assert ([c] + rest)[0] == c && ([c] + rest)[1..] == rest;
  }

  /** No call that survives both sweeps is changed by the earlier one and missed by the later one. */
  predicate NoneMissed(p: Policy, calls: seq<Call>, t1: int, left1: nat, t2: int, left2: nat) {
    calls == [] ||
    (var c := calls[0];
     var looks1, looks2 := Looked(p, c, t1, left1), Looked(p, c, t2, left2);
     && (looks1 && !looks2 && !Purged(p, c, t2) ==> Redact(p, c, t1) == c)
     && NoneMissed(p, calls[1..], t1, if looks1 then left1 - 1 else left1, t2, if looks2 then left2 - 1 else left2))
  }

  lemma {:induction false} PassAbsorbs(p: Policy, calls: seq<Call>, t1: int, left1: nat, t2: int, left2: nat)
    requires t1 <= t2
    ensures Pass(p, Pass(p, calls, t1, left1), t2, left2) == Pass(p, calls, t2, left2)
            <==> NoneMissed(p, calls, t1, left1, t2, left2)
  {
    if calls != [] {
      var c, rest := calls[0], calls[1..];
      assert calls == [c] + rest;
      PassHead(p, c, rest, t1, left1);
      PassHead(p, c, rest, t2, left2);
      var next1 := if Looked(p, c, t1, left1) then left1 - 1 else left1;
      var next2 := if Looked(p, c, t2, left2) then left2 - 1 else left2;
      PassAbsorbs(p, rest, t1, next1, t2, next2);
      if !Purged(p, c, t1) {
        var r := if Looked(p, c, t1, left1) then Redact(p, c, t1) else c;
        var first := Pass(p, rest, t1, next1);
        assert Pass(p, calls, t1, left1) == [r] + first;
        TwiceHead(p, c, r, first, Pass(p, rest, t2, next2), t1, t2, left2);
      }
    }
  }

  /** One call under the later sweep, `r` being what the earlier one made of it. */
  lemma TwiceHead(p: Policy, c: Call, r: Call, first: seq<Call>, others: seq<Call>, t1: int, t2: int, left2: nat)
    requires t1 <= t2 && (r == c || r == Redact(p, c, t1))
    ensures var looks := Looked(p, c, t2, left2);
      Pass(p, [r] + first, t2, left2)
        == (if Purged(p, c, t2) then others else [if looks then Redact(p, c, t2) else c] + others)
      <==> (looks || Purged(p, c, t2) || r == c) && Pass(p, first, t2, if looks then left2 - 1 else left2) == others
  {
    RedactAbsorbs(p, c, t1, t2);
    PassHead(p, r, first, t2, left2);
    var looks := Looked(p, c, t2, left2);
    if !Purged(p, c, t2) {
      SameHead(if looks then Redact(p, c, t2) else r, if looks then Redact(p, c, t2) else c,
               Pass(p, first, t2, if looks then left2 - 1 else left2), others);
    }
  }

  lemma SameHead(a: Call, b: Call, s: seq<Call>, t: seq<Call>)
    ensures [a] + s == [b] + t <==> a == b && s == t
  {
    assert ([a] + s)[0] == a && ([b] + t)[0] == b && ([a] + s)[1..] == s && ([b] + t)[1..] == t;
  }

  /** A later sweep absorbs an earlier one exactly when it misses no call that the earlier one changed. */
  lemma LaterSweepAbsorbs(p: Policy, calls: seq<Call>, t1: int, t2: int)
    requires t1 <= t2
    ensures Sweep(p, Sweep(p, calls, t1), t2) == Sweep(p, calls, t2)
            <==> NoneMissed(p, calls, t1, SWEEP_LIMIT, t2, SWEEP_LIMIT)
    ensures OldOnes(p, Kept(p, calls, t2), t2) <= SWEEP_LIMIT ==> Sweep(p, Sweep(p, calls, t1), t2) == Sweep(p, calls, t2)
  {
    PassAbsorbs(p, calls, t1, SWEEP_LIMIT, t2, SWEEP_LIMIT);
    if OldOnes(p, Kept(p, calls, t2), t2) <= SWEEP_LIMIT {
      FewAreNotMissed(p, calls, t1, SWEEP_LIMIT, t2, SWEEP_LIMIT);
    }
  }

  lemma {:induction false} FewAreNotMissed(p: Policy, calls: seq<Call>, t1: int, left1: nat, t2: int, left2: nat)
    requires t1 <= t2 && OldOnes(p, Kept(p, calls, t2), t2) <= left2
    ensures NoneMissed(p, calls, t1, left1, t2, left2)
  {
    if calls != [] {
      var c, rest := calls[0], calls[1..];
      assert calls == [c] + rest;
      KeptHead(p, c, rest, t2);
      var kept := Kept(p, rest, t2);
      assert ([c] + kept)[0] == c && ([c] + kept)[1..] == kept;
      FewAreNotMissed(p, rest, t1, if Looked(p, c, t1, left1) then left1 - 1 else left1,
                      t2, if Looked(p, c, t2, left2) then left2 - 1 else left2);
    }
  }

  /** Sweeps at the given times, one after another. */
  function SweepAt(p: Policy, calls: seq<Call>, times: seq<int>): seq<Call>
    decreases |times|
  {
    if times == [] then calls else SweepAt(p, Sweep(p, calls, times[0]), times[1..])
  }

  /** Behind as many old calls as a sweep looks at, a call is passed over, however long it is kept. */
  ghost predicate Crowded(p: Policy, newer: seq<Call>, oldest: Call, times: seq<int>) {
    && (forall c | c in newer :: oldest.startedAt <= c.startedAt)
    && (forall t | t in times :: !Purged(p, oldest, t) && SWEEP_LIMIT <= OldOnes(p, newer, t))
  }

  /**
   Beyond the limit the oldest calls are never reached: calls already redacted still take up the
   places, so a call behind them keeps everything through every sweep until it is purged.
   */
  lemma {:induction false} OldestNeverReached(p: Policy, newer: seq<Call>, oldest: Call, times: seq<int>) returns (left: seq<Call>)
    requires Crowded(p, newer, oldest, times)
    ensures SweepAt(p, newer + [oldest], times) == left + [oldest]
    decreases |times|
  {
    if times == [] {
      return newer;
    }
    var t, rest := times[0], times[1..];
    assert t in times && forall u | u in rest :: u in times;
    NonePurged(p, newer + [oldest], t);
    PassedOver(p, newer, oldest, t, SWEEP_LIMIT);
    var swept := RedactOld(p, newer, t, SWEEP_LIMIT);
    forall u | u in rest
      ensures OldOnes(p, swept, u) == OldOnes(p, newer, u)
    {
      AgesKept(p, newer, t, SWEEP_LIMIT, u);
    }
    AgesKept(p, newer, t, SWEEP_LIMIT, t);
    NotOlder(p, newer, oldest, t, SWEEP_LIMIT);
    left := OldestNeverReached(p, swept, oldest, rest);
  }

  lemma {:induction false} NonePurged(p: Policy, calls: seq<Call>, now: int)
    requires forall c | c in calls :: !Purged(p, c, now)
    ensures Kept(p, calls, now) == calls
  {
    if calls != [] {
      NonePurged(p, calls[1..], now);
    }
  }

  lemma {:induction false} PassedOver(p: Policy, newer: seq<Call>, oldest: Call, now: int, left: nat)
    requires left <= OldOnes(p, newer, now)
    ensures RedactOld(p, newer + [oldest], now, left) == RedactOld(p, newer, now, left) + [oldest]
  {
    if newer == [] {
      assert newer + [oldest] == [oldest] && [oldest][1..] == [];
    } else {
      assert (newer + [oldest])[1..] == newer[1..] + [oldest];
      PassedOver(p, newer[1..], oldest, now, if Old(p, newer[0], now) && left > 0 then left - 1 else left);
    }
  }

  lemma {:induction false} AgesKept(p: Policy, calls: seq<Call>, now: int, left: nat, later: int)
    ensures OldOnes(p, RedactOld(p, calls, now, left), later) == OldOnes(p, calls, later)
  {
    if calls != [] {
      var after := if Old(p, calls[0], now) && left > 0 then left - 1 else left;
      AgesKept(p, calls[1..], now, after, later);
      assert RedactOld(p, calls, now, left)[1..] == RedactOld(p, calls[1..], now, after);
    }
  }

  lemma {:induction false} NotOlder(p: Policy, calls: seq<Call>, oldest: Call, now: int, left: nat)
    requires forall c | c in calls :: oldest.startedAt <= c.startedAt
    ensures forall c | c in RedactOld(p, calls, now, left) :: oldest.startedAt <= c.startedAt
  {
    if calls != [] {
      assert calls[0] in calls;
      NotOlder(p, calls[1..], oldest, now, if Old(p, calls[0], now) && left > 0 then left - 1 else left);
    }
  }

  /** A pass that has come to call `i`, with `left` still to look at: the rest completes it. */
  ghost predicate PassSoFar(p: Policy, list: seq<Call>, now: int, limit: nat, i: nat, left: nat,
                            out: seq<Call>, dropped: nat, redacted: nat)
    requires i <= |list|
  {
    && out + RedactOld(p, list[i..], now, left) == RedactOld(p, list, now, limit)
    && dropped + RecordingsLost(p, list[i..], now, left) == RecordingsLost(p, list, now, limit)
    && redacted + TextsLost(p, list[i..], now, left) == TextsLost(p, list, now, limit)
  }

  lemma PassNext(p: Policy, list: seq<Call>, now: int, limit: nat, i: nat, left: nat,
                 out: seq<Call>, dropped: nat, redacted: nat)
    requires i < |list| && PassSoFar(p, list, now, limit, i, left, out, dropped, redacted)
    ensures var c, looks := list[i], Old(p, list[i], now) && 0 < left;
      PassSoFar(p, list, now, limit, i + 1, if looks then left - 1 else left,
                out + [if looks then Redact(p, c, now) else c],
                dropped + (if looks && LosesRecordings(p, c, now) then 1 else 0),
                redacted + (if looks && LosesText(p, c, now) then 1 else 0))
  {
  }

  class ComplianceService {
    const policy: Policy
    /** Newest first. */
    var calls: seq<Call>

    constructor (policy: Policy, calls: seq<Call>)
      ensures this.policy == policy && this.calls == calls
    {
      this.policy, this.calls := policy, calls;
    }

    method SweepTenant(now: int) returns (purged: nat, dropped: nat, redacted: nat)
      modifies `calls
      ensures calls == Sweep(policy, old(calls), now)
      ensures |calls| == |old(calls)| - purged
      ensures dropped == RecordingsLost(policy, Kept(policy, old(calls), now), now, SWEEP_LIMIT)
      ensures redacted == TextsLost(policy, Kept(policy, old(calls), now), now, SWEEP_LIMIT)
    {
      purged := PurgeCalls(now);
      calls, dropped, redacted := RedactCalls(calls, now, SWEEP_LIMIT);
    }

    method PurgeCalls(now: int) returns (purged: nat)
      modifies `calls
      ensures calls == Kept(policy, old(calls), now) && |calls| == |old(calls)| - purged
    {
      purged := 0;
      var kept: seq<Call> := [];
      for i := 0 to |calls|
        invariant calls == old(calls)
        invariant kept == Kept(policy, calls[..i], now) && |kept| == i - purged
      {
        KeptSnoc(policy, calls[..i], calls[i], now);
        assert calls[..i + 1] == calls[..i] + [calls[i]];
        if calls[i].startedAt < now - policy.callDays * DAY {
          purged := purged + 1;
        } else {
          kept := kept + [calls[i]];
        }
      }
      assert calls[..|calls|] == calls;
      calls := kept;
    }

    method RedactCalls(list: seq<Call>, now: int, limit: nat) returns (out: seq<Call>, dropped: nat, redacted: nat)
      ensures out == RedactOld(policy, list, now, limit) && |out| == |list|
      ensures dropped == RecordingsLost(policy, list, now, limit) && redacted == TextsLost(policy, list, now, limit)
    {
      out, dropped, redacted := [], 0, 0;
      var looked := 0;
      for i := 0 to |list|
        invariant looked <= limit && |out| == i
        invariant PassSoFar(policy, list, now, limit, i, limit - looked, out, dropped, redacted)
      {
        var c := list[i];
        PassNext(policy, list, now, limit, i, limit - looked, out, dropped, redacted);
        var r := c;
        if looked < limit && c.startedAt < now - Min(policy.transcriptDays, policy.recordingDays) * DAY {
          looked := looked + 1;
          var d, t;
          r, d, t := RedactOne(c, now);
          if d {
            dropped := dropped + 1;
          }
          if t {
            redacted := redacted + 1;
          }
        }
        out := out + [r];
      }
      assert list[|list|..] == [] && out + [] == out;
    }

    method RedactOne(c: Call, now: int) returns (r: Call, dropped: bool, redacted: bool)
      ensures r == Redact(policy, c, now)
      ensures dropped == LosesRecordings(policy, c, now) && redacted == LosesText(policy, c, now)
    {
      r := c;
      var age := now - c.startedAt;
      dropped := age > policy.recordingDays * DAY && c.recordings != [];
      if dropped {
        r := r.(recordings := []);
      }
      redacted := age > policy.transcriptDays * DAY && (c.transcript != [] || c.summary != "");
      if redacted {
        r := r.(transcript := [], extracted := map[]);
        if c.summary != "" {
          r := r.(summary := REDACTED);
        }
        if policy.maskCaller && c.caller != "" && '*' !in c.caller {
          r := r.(caller := Mask(c.caller));
        }
      }
    }
  }

  lemma {:induction false} KeptSnoc(p: Policy, calls: seq<Call>, c: Call, now: int)
    ensures Kept(p, calls + [c], now) == Kept(p, calls, now) + (if Purged(p, c, now) then [] else [c])
  {
    if calls == [] {
      assert calls + [c] == [c] && [c][1..] == [];
    } else {
      KeptSnoc(p, calls[1..], c, now);
      assert (calls + [c])[1..] == calls[1..] + [c];
    }
  }
}
