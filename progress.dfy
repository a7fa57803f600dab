/** The pure part of the typing-to-experience accumulator. */
module Progress {
  import opened Messages

  /** Characters that make up one batch, and experience earned per batch. */
  const BATCH_CHARS := 100
  const BATCH_XP := 5

  /** Level derived from experience: one level per 100 xp, starting at level 1.
      JavaScript's Math.floor of xp / 100 is Dafny's `/` for a positive divisor. */
  function GetLevel(xp: int): (level: int)
    ensures 100 * (level - 1) <= xp < 100 * level
  {
    xp / 100 + 1
  }

  lemma GetLevelExamples()
    ensures GetLevel(0) == 1 && GetLevel(99) == 1 && GetLevel(100) == 2 && GetLevel(150) == 2
  {
  }

  lemma GetLevelMonotone(a: int, b: int)
    requires a <= b
    ensures GetLevel(a) <= GetLevel(b)
  {
  }

  /** The number of characters a change event inserts: the left fold that sums the
      lengths of the inserted texts of its content changes. */
  function InsertedChars(lengths: seq<nat>): (sum: nat)
    ensures sum == 0 <==> forall i :: 0 <= i < |lengths| ==> lengths[i] == 0
    ensures forall i :: 0 <= i < |lengths| ==> lengths[i] <= sum
  {
    if |lengths| == 0 then 0
    else InsertedChars(lengths[..|lengths| - 1]) + lengths[|lengths| - 1]
  }

  lemma {:induction false} InsertedCharsAppend(a: seq<nat>, b: seq<nat>)
    ensures InsertedChars(a + b) == InsertedChars(a) + InsertedChars(b)
    decreases |b|
  {
    if |b| == 0 {
      assert a + b == a;
    } else {
      var last := |b| - 1;
      assert (a + b)[..|a + b| - 1] == a + b[..last];
      InsertedCharsAppend(a, b[..last]);
    }
  }

  /** The module-level accumulator state: total experience and the characters typed
      since the last completed batch. */
  datatype Totals = Totals(totalXP: int, pendingChars: int)

  const Zero := Totals(0, 0)

  /** What the change handler does to the totals when the event inserts `chars`
      characters: nothing for an empty event, otherwise add to the pending count and
      turn every completed batch of 100 into 5 xp, keeping the remainder. */
  function Accumulate(t: Totals, chars: nat): (r: Totals)
    ensures chars == 0 ==> r == t
    // every 100 characters are worth 5 xp, so 20 * xp + pending is conserved
    ensures 20 * r.totalXP + r.pendingChars == 20 * t.totalXP + t.pendingChars + chars
    // a non-empty event brings any non-negative pending count below one batch
    ensures chars > 0 && t.pendingChars >= 0 ==> 0 <= r.pendingChars < BATCH_CHARS
    ensures 0 <= t.pendingChars < BATCH_CHARS ==> 0 <= r.pendingChars < BATCH_CHARS
    ensures r.totalXP >= t.totalXP && (r.totalXP - t.totalXP) % BATCH_XP == 0
    ensures r.totalXP > t.totalXP <==> chars > 0 && t.pendingChars + chars >= BATCH_CHARS
  {
    if chars > 0 then
      var pending := t.pendingChars + chars;
      var earnedXP := (pending / BATCH_CHARS) * BATCH_XP;
      if earnedXP > 0 then Totals(t.totalXP + earnedXP, pending % BATCH_CHARS)
      else Totals(t.totalXP, pending)
    else
      t
  }

  /** With a pending count below one batch, the totals after an event are the
      quotient and remainder of the pending count plus the new characters. */
  lemma AccumulateInRange(t: Totals, chars: nat)
    requires 0 <= t.pendingChars < BATCH_CHARS
    ensures Accumulate(t, chars) ==
      Totals(t.totalXP + ((t.pendingChars + chars) / 100) * 5, (t.pendingChars + chars) % 100)
  {
  }

  /** The message the change handler posts for an event inserting `chars` characters,
      following the handler's branches: none for an empty event, `Level-Up` when the
      earned xp raised the level, `Coding` otherwise. */
  function HandlerPost(t: Totals, chars: nat): (m: Option<PetMessage>)
    ensures m.None? <==> chars == 0
    ensures m.Some? ==>
      var after := Accumulate(t, chars);
      m.value == Update(if GetLevel(after.totalXP) > GetLevel(t.totalXP) then LevelUp else Coding,
                        after.totalXP, GetLevel(after.totalXP))
    ensures m.Some? && m.value.state == Some(LevelUp) ==> Accumulate(t, chars).totalXP > t.totalXP
  {
    if chars > 0 then
      var earnedXP := ((t.pendingChars + chars) / BATCH_CHARS) * BATCH_XP;
      if earnedXP > 0 then
        var prevLevel := GetLevel(t.totalXP);
        var totalXP := t.totalXP + earnedXP;
        var newLevel := GetLevel(totalXP);
        if newLevel > prevLevel then Some(Update(LevelUp, totalXP, newLevel))
        else Some(Update(Coding, totalXP, newLevel))
      else
        Some(Update(Coding, t.totalXP, GetLevel(t.totalXP)))
    else
      None
  }

  /** The totals after a sequence of change events, each given by the inserted lengths
      of its content changes. */
  function Replay(t: Totals, events: seq<seq<nat>>): Totals
    decreases |events|
  {
    if |events| == 0 then t
    else Replay(Accumulate(t, InsertedChars(events[0])), events[1..])
  }

  /** All characters the events insert. */
  function TypedChars(events: seq<seq<nat>>): nat
    decreases |events|
  {
    if |events| == 0 then 0 else InsertedChars(events[0]) + TypedChars(events[1..])
  }

  /** Splitting a number of characters across two batches changes neither the
      completed batches nor the remainder. */
  lemma DivModSplit(p: nat, rest: nat)
    ensures p / 100 + (p % 100 + rest) / 100 == (p + rest) / 100
    ensures (p % 100 + rest) % 100 == (p + rest) % 100
  {
    var q, s := p / 100, p % 100;
    var q2, s2 := (s + rest) / 100, (s + rest) % 100;
    assert p + rest == 100 * (q + q2) + s2;
  }

  /** However the characters are split into events, the totals depend only on how
      many characters were typed. */
  lemma {:induction false} ReplayInRange(t: Totals, events: seq<seq<nat>>)
    requires 0 <= t.pendingChars < BATCH_CHARS
    ensures Replay(t, events) ==
      Totals(t.totalXP + ((t.pendingChars + TypedChars(events)) / 100) * 5,
             (t.pendingChars + TypedChars(events)) % 100)
    decreases |events|
  {
    if |events| > 0 {
      var c := InsertedChars(events[0]);
      var next := Accumulate(t, c);
      AccumulateInRange(t, c);
      ReplayInRange(next, events[1..]);
      DivModSplit(t.pendingChars + c, TypedChars(events[1..]));
    }
  }

  /** From a fresh start, N typed characters give (N / 100) * 5 xp and N % 100 pending. */
  lemma ReplayFromZero(events: seq<seq<nat>>)
    ensures Replay(Zero, events) ==
      Totals((TypedChars(events) / 100) * 5, TypedChars(events) % 100)
  {
    ReplayInRange(Zero, events);
  }

  /** Experience never decreases over any sequence of events, grows by whole
      batches only, and a pending count in range stays in range. */
  lemma {:induction false} ReplayMonotone(t: Totals, events: seq<seq<nat>>)
    ensures Replay(t, events).totalXP >= t.totalXP
    ensures (Replay(t, events).totalXP - t.totalXP) % BATCH_XP == 0
    ensures 0 <= t.pendingChars < BATCH_CHARS ==> 0 <= Replay(t, events).pendingChars < BATCH_CHARS
    decreases |events|
  {
    if |events| > 0 {
      ReplayMonotone(Accumulate(t, InsertedChars(events[0])), events[1..]);
    }
  }

  lemma Scenarios()
    // 250 characters from nothing: 10 xp, 50 pending, still level 1
    ensures Accumulate(Zero, 250) == Totals(10, 50)
    ensures HandlerPost(Zero, 250) == Some(Update(Coding, 10, 1))
    // 95 xp and 100 more characters: 100 xp, level 2, a level-up
    ensures Accumulate(Totals(95, 0), 100) == Totals(100, 0)
    ensures HandlerPost(Totals(95, 0), 100) == Some(Update(LevelUp, 100, 2))
  {
  }
}
