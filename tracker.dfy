// The tracker: two event counters bumped by editor callbacks and a destructive read.
module Tracker {
  import opened Analyzer

  /**
   * The sample reported for `keystrokes` edits and `fileSwitches` editor changes
   * counted since `lastReset`, read at time `now` (milliseconds).
   */
  function Sample(keystrokes: nat, fileSwitches: nat, lastReset: int, now: int): (d: RawData)
    ensures d.fileSwitches == fileSwitches
    ensures d.typingSpeed >= 0.0
    ensures now - lastReset <= 0 ==> d.typingSpeed == 0.0
    ensures now - lastReset > 0 ==>
      d.typingSpeed == (keystrokes * 60000) as real / (now - lastReset) as real
  {
    var minutes := (now - lastReset) as real / 60000.0;
    var typingSpeed := if minutes > 0.0 then keystrokes as real / minutes else 0.0;
    RawData(typingSpeed, fileSwitches)
  }

  /** After a reset with no events since, every sample is empty. */
  lemma IdleSampleIsEmpty(lastReset: int, now: int)
    ensures Sample(0, 0, lastReset, now) == RawData(0.0, 0)
  {
  }

  class Tracker {
    var keystrokes: nat
    var lastReset: int
    var fileSwitches: nat

    /** A tracker created at time `now`. */
    constructor (now: int)
      ensures keystrokes == 0 && fileSwitches == 0 && lastReset == now
    {
      keystrokes := 0;
      lastReset := now;
      fileSwitches := 0;
    }

    /** The text-document-change callback. */
    method OnTextDocumentChange()
      modifies this
      ensures keystrokes == old(keystrokes) + 1
      ensures fileSwitches == old(fileSwitches) && lastReset == old(lastReset)
    {
      keystrokes := keystrokes + 1;
    }

    /** The active-editor-change callback. */
    method OnActiveEditorChange()
      modifies this
      ensures fileSwitches == old(fileSwitches) + 1
      ensures keystrokes == old(keystrokes) && lastReset == old(lastReset)
    {
      fileSwitches := fileSwitches + 1;
    }

    /** Reports the counts since the last reset, then clears both counters and restarts the window at `now`. */
    method GetData(now: int) returns (data: RawData)
      modifies this
      ensures data == Sample(old(keystrokes), old(fileSwitches), old(lastReset), now)
      ensures data.fileSwitches == old(fileSwitches)
      ensures keystrokes == 0 && fileSwitches == 0 && lastReset == now
    {
      data := Sample(keystrokes, fileSwitches, lastReset, now);
      keystrokes := 0;
      fileSwitches := 0;
      lastReset := now;
    }
  }

  /** Two reads at the same instant: the second sees nothing. */
  method GetDataTwice(tracker: Tracker, now: int) returns (first: RawData, second: RawData)
    modifies tracker
    ensures first == Sample(old(tracker.keystrokes), old(tracker.fileSwitches), old(tracker.lastReset), now)
    ensures second == RawData(0.0, 0)
  {
    first := tracker.GetData(now);
    second := tracker.GetData(now);
  }
}
