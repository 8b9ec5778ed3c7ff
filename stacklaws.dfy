/** Clients of the machine's stack methods: on each of the three stacks, a
    push followed by a pop gives back what was pushed and restores the stack. */
module StackLaws {
  import opened Values
  import opened Machine

  /** push(v) then pop() on the current frame's data stack. */
  method PushThenPop(vm: VirtualMachine, v: Value) returns (r: Result<Value>)
    modifies if vm.frame == null then {} else {vm.frame}
    ensures vm.frame == null ==> r == Err(NoFrameDataStack)
    ensures vm.frame != null ==>
              && r == Ok(v)
              && vm.frame.dataStack == old(vm.frame.dataStack)
              && vm.frame.blockStack == old(vm.frame.blockStack)
              && vm.frame.pos == old(vm.frame.pos)
  {
    var pushed := vm.Push([v]);
    r := vm.Pop();
  }

  /** push(vals) then popn(|vals|) on the current frame's data stack. */
  method PushThenPopN(vm: VirtualMachine, vals: seq<Value>) returns (r: Result<seq<Value>>)
    requires vals != []
    modifies if vm.frame == null then {} else {vm.frame}
    ensures vm.frame == null ==> r == Err(NoFrameDataStack)
    ensures vm.frame != null ==> r == Ok(vals) && vm.frame.dataStack == old(vm.frame.dataStack)
  {
    var pushed := vm.Push(vals);
    if vm.frame != null {
      PopNTakesLastN(vm.frame.dataStack, |vals|);
    }
    r := vm.PopN(|vals|);
  }

  /** push_block then pop_block on the current frame's block stack: the block
      comes back with the data-stack height of the moment it was pushed. */
  method PushBlockThenPopBlock(vm: VirtualMachine, blockType: string, handler: Value) returns (r: Result<Block>)
    modifies if vm.frame == null then {} else {vm.frame}
    ensures vm.frame == null ==> r == Err(NoFrameDataStack)
    ensures vm.frame != null ==>
              && r == Ok(Block(blockType, handler, |old(vm.frame.dataStack)|))
              && vm.frame.blockStack == old(vm.frame.blockStack)
              && vm.frame.dataStack == old(vm.frame.dataStack)
  {
    var pushed := vm.PushBlock(blockType, handler);
    if pushed.Err? {
      return Err(pushed.error);
    }
    r := vm.PopBlock();
  }

  /** push_frame then pop_frame: the call stack and the current frame are as
      before. */
  method PushFrameThenPopFrame(vm: VirtualMachine, f: Frame) returns (r: Result<()>)
    requires vm.Valid()
    modifies vm`callStack, vm`frame
    ensures vm.Valid() && r == Ok(())
    ensures vm.callStack == old(vm.callStack) && vm.frame == old(vm.frame)
  {
    vm.PushFrame(f);
    r := vm.PopFrame();
    assert old(vm.callStack) + [f] != [];
  }
}
