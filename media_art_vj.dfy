/**
 * The media-art VJ demo (0007_vj): three patterns picked directly by the
 * shoulder buttons and A (or the keys 1, 2, 3), a ticker counting frames
 * modulo 1000, and looping music on channel 0 that is restarted only when
 * the pattern changes.
 */
module MediaArtVj {
  import opened Wrappers

  const TickerPeriod: int := 1000

  /** `last_pattern` before the first update: no pattern has had its music started. */
  const NoPattern: int := -1

  /** The new presses `update` polls: LEFTSHOULDER or 1, RIGHTSHOULDER or 2, A or 3. */
  datatype Selectors = Selectors(first: bool, second: bool, third: bool)

  /**
   * The pattern after the three selector checks, made in the order 0, 1, 2;
   * each pressed selector overwrites the one before, so the last check wins.
   */
  function Selected(p: int, s: Selectors): (r: int)
    ensures s.third ==> r == 2
    ensures !s.third && s.second ==> r == 1
    ensures !s.third && !s.second && s.first ==> r == 0
    ensures !s.first && !s.second && !s.third ==> r == p
  {
    var r0 := if s.first then 0 else p;
    var r1 := if s.second then 1 else r0;
    if s.third then 2 else r1
  }

  /** Selecting keeps the pattern among 0, 1 and 2, and selecting twice is selecting once. */
  lemma SelectedInRange(p: int, s: Selectors)
    requires 0 <= p <= 2
    ensures 0 <= Selected(p, s) <= 2
    ensures Selected(Selected(p, s), s) == Selected(p, s)
  {
  }

  /** The looping music of a pattern: sounds 3, 4 and 5 for patterns 0, 1 and 2. */
  function MusicOf(p: int): (m: Option<int>)
    ensures 0 <= p <= 2 <==> m.Some?
    ensures m.Some? ==> m.value == p + 3
  {
    if p == 0 then Some(3) else if p == 1 then Some(4) else if p == 2 then Some(5) else None
  }

  class VJ {
    var pattern: int
    var lastPattern: int
    var ticker: int

    /** The ticker and the pattern in range; `last_pattern` is the pattern whose music plays, or none yet. */
    ghost predicate Valid()
      reads this
    {
      0 <= ticker < TickerPeriod && 0 <= pattern <= 2 && (lastPattern == NoPattern || 0 <= lastPattern <= 2)
    }

    constructor ()
      ensures Valid()
      ensures pattern == 0 && lastPattern == NoPattern && ticker == 0
    {
      pattern, lastPattern, ticker := 0, NoPattern, 0;
    }

    /**
     * One `update`.  `music` is the sound the stop-and-replay on channel 0
     * starts, and `None` when the music is left alone; quitting is not
     * modelled.
     */
    method Update(s: Selectors) returns (music: Option<int>)
      requires Valid()
      modifies this
      ensures Valid()
      ensures ticker == (old(ticker) + 1) % TickerPeriod
      ensures pattern == Selected(old(pattern), s)
      ensures lastPattern == pattern
      ensures music == if pattern != old(lastPattern) then MusicOf(pattern) else None
    {
      ticker := (ticker + 1) % TickerPeriod;
      if s.first {
        pattern := 0;
      }
      if s.second {
        pattern := 1;
      }
      if s.third {
        pattern := 2;
      }
      music := None;
      if pattern != lastPattern {
        if pattern == 0 {
          music := Some(3);
        } else if pattern == 1 {
          music := Some(4);
        } else if pattern == 2 {
          music := Some(5);
        }
        lastPattern := pattern;
      }
    }
  }

  /** The music an update starts, from the pattern before it, the one whose music plays and the presses. */
  function Trigger(p: int, last: int, s: Selectors): Option<int> {
    var q := Selected(p, s);
    if q != last then MusicOf(q) else None
  }

  /** The first update always starts the music of the pattern it ends on. */
  lemma FirstUpdateTriggers(s: Selectors)
    ensures Trigger(0, NoPattern, s) == Some(Selected(0, s) + 3)
  {
  }

  /**
   * Once an update has run, the music restarts exactly when the selection
   * moves to another pattern: re-selecting the current one, or pressing
   * nothing, leaves it playing.
   */
  lemma RestartsOnlyOnChange(p: int, s: Selectors)
    requires 0 <= p <= 2
    ensures Trigger(p, p, s).Some? <==> Selected(p, s) != p
    ensures Trigger(p, p, s).Some? ==> Trigger(p, p, s).value == Selected(p, s) + 3
  {
  }
}
