/** The delay and sound timers of src/chip8/timers.rs. */
module Timers {
  import opened Types

  /** One tick of a single counter: down by one, but never below zero. */
  function Tick(c: u8): (t: u8)
    ensures t <= c && c <= t + 1
    ensures t == c <==> c == 0
  {
    if c > 0 then c - 1 else 0
  }

  /** A counter after k ticks. */
  function Ticks(c: u8, k: nat): u8 {
    if k == 0 then c else Tick(Ticks(c, k - 1))
  }

  /** After k ticks a counter that started at c holds max(c - k, 0). */
  lemma {:induction false} TicksCountDown(c: u8, k: nat)
    ensures Ticks(c, k) == if k <= c then c - k else 0
  {
    if k > 0 {
      TicksCountDown(c, k - 1);
    }
  }

  class Chip8Timers {
    var delay: u8
    var sound: u8

    /** `new`: both counters zero. */
    constructor ()
      ensures delay == 0 && sound == 0
    {
      delay, sound := 0, 0;
    }

    /** `get_delay`. */
    function GetDelay(): u8 reads this { delay }

    /** `get_sound`. */
    function GetSound(): u8 reads this { sound }

    /** `*get_delay_mut() = val`: the sound timer is untouched. */
    method SetDelay(val: u8)
      modifies this`delay
      ensures GetDelay() == val && sound == old(sound)
    {
      delay := val;
    }

    /** `*get_sound_mut() = val`: the delay timer is untouched. */
    method SetSound(val: u8)
      modifies this`sound
      ensures GetSound() == val && delay == old(delay)
    {
      sound := val;
    }

    /**
     * `timer_tick`: each counter ticks on its own, the new delay depending
     * only on the old delay and the new sound only on the old sound.
     */
    method TimerTick()
      modifies this
      ensures delay == Tick(old(delay)) && sound == Tick(old(sound))
      ensures old(delay) > 0 ==> delay == old(delay) - 1
      ensures old(sound) > 0 ==> sound == old(sound) - 1
      ensures old(delay) == 0 ==> delay == 0
      ensures old(sound) == 0 ==> sound == 0
    {
      if delay > 0 {
        delay := delay - 1;
      }
      if sound > 0 {
        sound := sound - 1;
      }
    }
  }
}
