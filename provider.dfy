/** The webview view provider: forwards messages to the pet panel while one is attached. */
module Provider {
  import opened Messages

  class PetViewProvider {
    /** Whether the host has resolved a webview view (`_view` is set). */
    var attached: bool
    var initialXP: int
    var initialLevel: int
    /** Every message posted to the attached view's webview, in order; whether the
        host shows a post to a hidden webview is up to the host. */
    ghost var posted: seq<PetMessage>

    constructor ()
      ensures !attached && initialXP == 0 && initialLevel == 1 && posted == []
    {
      attached := false;
      initialXP := 0;
      initialLevel := 1;
      posted := [];
    }

    /** Stores the totals a newly attached view is shown and posts them as `Idle`. */
    method SetInitialState(xp: int, level: int)
      modifies this`initialXP, this`initialLevel, this`posted
      ensures initialXP == xp && initialLevel == level
      ensures posted == old(posted) + (if attached then [Update(Idle, xp, level)] else [])
    {
      initialXP := xp;
      initialLevel := level;
      PostMessageToWebview(Update(Idle, initialXP, initialLevel));
    }

    /** Delivers the message when a view is attached; otherwise drops it silently. */
    method PostMessageToWebview(message: PetMessage)
      modifies this`posted
      ensures posted == old(posted) + (if attached then [message] else [])
    {
      if attached {
        posted := posted + [message];
      }
    }

    /** The host attaches a view: remember it and show the stored initial totals as `Idle`. */
    method ResolveWebviewView()
      modifies this`attached, this`posted
      ensures attached
      ensures posted == old(posted) + [Update(Idle, initialXP, initialLevel)]
    {
      attached := true;
      PostMessageToWebview(Update(Idle, initialXP, initialLevel));
    }
  }
}
