/** The extension's module-level state after activation and the text-change handler. */
module Extension {
  import opened Messages
  import opened Progress
  import opened Provider

  /** The state `activate` sets up: the two accumulator integers, the two timers that
      can be outstanding, and the view provider. Timers carry no time here: a timer is
      armed by the handler and fires when the host calls the matching Fire method. */
  class Activation {
    var totalXP: int
    var pendingChars: int
    /** The 30-second inactivity timer is armed (at most one is outstanding). */
    var idleTimerArmed: bool
    /** Level-up revert timers scheduled and not yet fired (they are never cancelled). */
    var pendingReverts: nat
    const provider: PetViewProvider

    function Current(): Totals
      reads this
    {
      Totals(totalXP, pendingChars)
    }

    /** `activate`: load the stored totals (0 where none is stored), create the
        provider and hand it the initial state, which no view is attached to receive yet. */
    constructor (storedXP: Option<int>, storedPending: Option<int>)
      ensures totalXP == (if storedXP.Some? then storedXP.value else 0)
      ensures pendingChars == (if storedPending.Some? then storedPending.value else 0)
      ensures !idleTimerArmed && pendingReverts == 0
      ensures fresh(provider) && !provider.attached && provider.posted == []
      ensures provider.initialXP == totalXP && provider.initialLevel == GetLevel(totalXP)
    {
      var xp := if storedXP.Some? then storedXP.value else 0;
      var p := new PetViewProvider();
      p.SetInitialState(xp, GetLevel(xp));
      totalXP := xp;
      pendingChars := if storedPending.Some? then storedPending.value else 0;
      idleTimerArmed := false;
      pendingReverts := 0;
      provider := p;
    }

    /** The `onDidChangeTextDocument` callback; `changes` holds the inserted text
        length of each content change of the event. */
    method OnDidChangeTextDocument(changes: seq<nat>)
      modifies this, provider`posted
      ensures Current() == Accumulate(old(Current()), InsertedChars(changes))
      ensures var m := HandlerPost(old(Current()), InsertedChars(changes));
        provider.posted == old(provider.posted) + (if provider.attached && m.Some? then [m.value] else [])
      ensures totalXP >= old(totalXP)
      ensures 0 <= old(pendingChars) < BATCH_CHARS ==> 0 <= pendingChars < BATCH_CHARS
      ensures idleTimerArmed == (old(idleTimerArmed) || InsertedChars(changes) > 0)
      ensures pendingReverts == old(pendingReverts) +
        (if GetLevel(totalXP) > GetLevel(old(totalXP)) then 1 else 0)
    {
      var chars := InsertedChars(changes);
      if chars > 0 {
        pendingChars := pendingChars + chars;
        var earnedXP := (pendingChars / BATCH_CHARS) * BATCH_XP;
        if earnedXP > 0 {
          var prevLevel := GetLevel(totalXP);
          totalXP := totalXP + earnedXP;
          pendingChars := pendingChars % BATCH_CHARS;
          var newLevel := GetLevel(totalXP);
          if newLevel > prevLevel {
            provider.PostMessageToWebview(Update(LevelUp, totalXP, newLevel));
            pendingReverts := pendingReverts + 1;
          } else {
            provider.PostMessageToWebview(Update(Coding, totalXP, newLevel));
          }
        } else {
          provider.PostMessageToWebview(Update(Coding, totalXP, GetLevel(totalXP)));
        }
        idleTimerArmed := true;
      }
    }

    /** The level-up revert timer fires: post `Coding` with the totals as they are now. */
    method FireLevelUpRevert()
      requires pendingReverts > 0
      modifies this`pendingReverts, provider`posted
      ensures pendingReverts == old(pendingReverts) - 1
      ensures provider.posted == old(provider.posted) +
        (if provider.attached then [Update(Coding, totalXP, GetLevel(totalXP))] else [])
    {
      pendingReverts := pendingReverts - 1;
      provider.PostMessageToWebview(Update(Coding, totalXP, GetLevel(totalXP)));
    }

    /** The inactivity timer fires: post `Idle` with the totals as they are now. */
    method FireIdleTimer()
      requires idleTimerArmed
      // every revert is due 3 s after its event, the idle timer 30 s after the last one
      requires pendingReverts == 0
      modifies this`idleTimerArmed, provider`posted
      ensures !idleTimerArmed
      ensures provider.posted == old(provider.posted) +
        (if provider.attached then [Update(Idle, totalXP, GetLevel(totalXP))] else [])
    {
      idleTimerArmed := false;
      provider.PostMessageToWebview(Update(Idle, totalXP, GetLevel(totalXP)));
    }
  }

  /** A view attached after typing is shown the totals from activation time, not the
      running ones: from a fresh start, 3000 typed characters (150 xp, level 2) and then
      an attach posts `Idle` with 0 xp at level 1. */
  method LateAttach() returns (running: Totals, ghost shown: PetMessage)
    ensures running == Totals(150, 0)
    ensures shown == Update(Idle, 0, 1)
  {
    var ext := new Activation(None, None);
    ext.OnDidChangeTextDocument([1000, 2000]);
    ext.provider.ResolveWebviewView();
    assert |ext.provider.posted| == 1;
    shown := ext.provider.posted[0];
    running := ext.Current();
  }
}
