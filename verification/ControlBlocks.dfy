/** The objects threads share: a waiter's flag and a variable's value, list and counter
    (`control_block.rs`, `tvar.rs`). */
module ControlBlocks {
  import opened Values

  class ControlBlock {
    /** The flag `wait` polls, and whether the thread has been unparked. */
    var blocked: bool
    var unparks: nat

    constructor ()
      ensures blocked && unparks == 0
    {
      blocked := true;
      unparks := 0;
    }

    /** However often it is called, the flag is cleared and the thread unparked once. */
    method SetChanged()
      modifies this
      ensures !blocked
      ensures unparks == old(unparks) + if old(blocked) then 1 else 0
    {
      var was := blocked;
      blocked := false;
      if was {
        unparks := unparks + 1;
      }
    }
  }

  class VarControlBlock {
    const address: Addr
    var value: Arc
    var waiting: seq<ControlBlock>
    var dead: nat

    constructor (address: Addr, value: Arc)
      ensures this.address == address && this.value == value && waiting == [] && dead == 0
    {
      this.address := address;
      this.value := value;
      waiting := [];
      dead := 0;
    }

    /** Every live waiter in the list is signalled, nobody else is, and the list is empty. `alive`
        says which weak references can be upgraded. */
    method WakeAll(alive: set<ControlBlock>)
      modifies this`waiting, set cb | cb in waiting
      ensures waiting == []
      ensures forall cb :: cb in old(waiting) && cb in alive ==>
                !cb.blocked && cb.unparks == old(cb.unparks) + if old(cb.blocked) then 1 else 0
      ensures forall cb :: cb in old(waiting) && cb !in alive ==>
          cb.blocked == old(cb.blocked) && cb.unparks == old(cb.unparks)
    {
      var threads := waiting;
      waiting := [];
      var i := 0;
      while i < |threads|
        invariant 0 <= i <= |threads|
        invariant waiting == []
        invariant forall cb :: cb in threads[..i] && cb in alive ==>
                    !cb.blocked && cb.unparks == old(cb.unparks) + if old(cb.blocked) then 1 else 0
        invariant forall cb :: cb in threads && (cb !in threads[..i] || cb !in alive) ==>
                    cb.blocked == old(cb.blocked) && cb.unparks == old(cb.unparks)
      {
        assert threads[..i + 1] == threads[..i] + [threads[i]];
        if threads[i] in alive {
          threads[i].SetChanged();
        }
        i := i + 1;
      }
      assert threads[..i] == threads;
    }

    /** Add a waiter at the end of the list. */
    method Wait(thread: ControlBlock)
      modifies this`waiting
      ensures waiting == old(waiting) + [thread]
    {
      waiting := waiting + [thread];
    }

    /** Count one more dead waiter; past 64, reset the count and drop the dead ones. */
    method SetDead(alive: set<ControlBlock>)
      modifies this`waiting, this`dead
      ensures dead == if old(dead) >= 64 then 0 else old(dead) + 1
      ensures waiting == if old(dead) >= 64 then Keep(old(waiting), alive) else old(waiting)
    {
      var deads := dead;
      dead := dead + 1;
      if deads >= 64 {
        dead := 0;
        waiting := Keep(waiting, alive);
      }
    }
  }
}
