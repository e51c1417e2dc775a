/**
 * ClipZen/KeyboardShortcuts.swift: the key-down monitor that pastes the
 * newest history item on Command+V and opens the history window on
 * Command+Shift+V.
 */
module GlobalShortcuts {
  import opened Common
  import opened Events
  import opened ClipboardHistory

  /** `kVK_ANSI_V`. */
  const VKeyCode: nat := 9

  /** What one key event triggers. */
  datatype Action = CopyNewest(item: ClipboardItem) | ShowHistoryWindow

  predicate IsCommandV(event: KeyEvent) {
    Command in event.modifierFlags && event.keyCode == VKeyCode
  }

  predicate IsCommandShiftV(event: KeyEvent) {
    Command in event.modifierFlags && Shift in event.modifierFlags && event.keyCode == VKeyCode
  }

  /**
   * `handleKeyEvent`: the two checks run one after the other. `history` is
   * the registered manager's `clipboardItems`, None before `register`.
   */
  function Dispatch(event: KeyEvent, history: Option<seq<ClipboardItem>>): (r: seq<Action>)
    ensures ShowHistoryWindow in r <==> IsCommandShiftV(event)
    ensures forall item :: CopyNewest(item) in r <==>
              IsCommandV(event) && history.Some? && history.value != [] && item == history.value[0]
    ensures |r| <= 2 && (|r| == 2 ==> r[0].CopyNewest? && r[1] == ShowHistoryWindow)
    ensures Command !in event.modifierFlags || event.keyCode != VKeyCode ==> r == []
  {
    var copy := if IsCommandV(event) && history.Some? && history.value != [] then [CopyNewest(history.value[0])] else [];
    var show := if IsCommandShiftV(event) then [ShowHistoryWindow] else [];
    copy + show
  }

  /** Command+Shift+V also passes the first check, so it pastes the newest item before opening the window. */
  lemma CommandShiftVAlsoCopies(event: KeyEvent, history: seq<ClipboardItem>)
    requires IsCommandShiftV(event) && history != []
    ensures Dispatch(event, Some(history)) == [CopyNewest(history[0]), ShowHistoryWindow]
  {
    var r := Dispatch(event, Some(history));
    assert CopyNewest(history[0]) in r && ShowHistoryWindow in r;
  }

  /** The KeyboardShortcuts singleton: the manager it was registered with, if any. */
  class KeyboardShortcuts {
    var clipboardManager: ClipboardManager?

    constructor ()
      ensures clipboardManager == null
    {
      clipboardManager := null;
    }

    /** `register(with:)`; installing the two event monitors is not modelled. */
    method Register(manager: ClipboardManager)
      modifies this
      ensures clipboardManager == manager
    {
      clipboardManager := manager;
    }

    function History(): Option<seq<ClipboardItem>>
      reads this, clipboardManager
    {
      if clipboardManager == null then None else Some(clipboardManager.clipboardItems)
    }

    /**
     * `handleKeyEvent`: performs the copy on the pasteboard and returns the
     * actions taken (showing the window is returned, not performed).
     */
    method HandleKeyEvent(event: KeyEvent, pasteboard: Pasteboard) returns (actions: seq<Action>)
      modifies pasteboard
      ensures actions == Dispatch(event, History())
      ensures actions != [] && actions[0].CopyNewest? ==>
                pasteboard.changeCount == old(pasteboard.changeCount) + 1 &&
                (pasteboard.stringValue, pasteboard.tiffValue) == Written(actions[0].item)
      ensures !(actions != [] && actions[0].CopyNewest?) ==> unchanged(pasteboard)
    {
      actions := [];
      if Command in event.modifierFlags && event.keyCode == VKeyCode {
        if clipboardManager != null && clipboardManager.clipboardItems != [] {
          var lastItem := clipboardManager.clipboardItems[0];
          clipboardManager.CopyToPasteboard(lastItem, pasteboard);
          actions := actions + [CopyNewest(lastItem)];
        }
      }
      if Command in event.modifierFlags && Shift in event.modifierFlags && event.keyCode == VKeyCode {
        actions := actions + [ShowHistoryWindow];
      }
    }
  }
}
