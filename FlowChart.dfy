/**
 * Basic blocks of a function's flowchart as the host disassembler reports
 * them, the lookup of the block holding an address, and the classification
 * of blocks that end control flow.
 */
module FlowChart {
  import opened Wrappers

  /** IDA Pro's basic-block types (`fcb_normal` ... `fcb_error`). */
  datatype BlockType = Normal | IndJump | Ret | CndRet | NoRet | ENoRet | Extern | Error

  /**
   * A block spans `[startEa, endEa)`; only the types of its successor blocks
   * matter to this model, so successors are given by their types.
   */
  datatype BasicBlock = BasicBlock(startEa: int, endEa: int, kind: BlockType, succKinds: seq<BlockType>)

  /** The block is taken to hold `addr`: inside its span, or at its start even when the span is empty. */
  predicate Holds(bb: BasicBlock, addr: int) {
    (addr >= bb.startEa && addr < bb.endEa) || addr == bb.startEa
  }

  /** Block `i` holds `addr` and no earlier block does. */
  predicate FirstHolding(flowchart: seq<BasicBlock>, addr: int, i: int) {
    0 <= i < |flowchart| && Holds(flowchart[i], addr) &&
    forall j :: 0 <= j < i ==> !Holds(flowchart[j], addr)
  }

  /** `_getBlockByAddr`: the first block of the flowchart, in its order, that holds `addr`. */
  method GetBlockByAddr(addr: int, flowchart: seq<BasicBlock>) returns (r: Option<BasicBlock>)
    ensures r.None? <==> forall i :: 0 <= i < |flowchart| ==> !Holds(flowchart[i], addr)
    ensures r.Some? ==> exists i :: FirstHolding(flowchart, addr, i) && flowchart[i] == r.value
  {
    for i := 0 to |flowchart|
      invariant forall j :: 0 <= j < i ==> !Holds(flowchart[j], addr)
    {
      if Holds(flowchart[i], addr) {
        return Some(flowchart[i]);
      }
    }
    return None;
  }

  /** The scan over a block's successors for one of type `extern`. */
  function AnyExtern(kinds: seq<BlockType>): (r: bool)
    ensures r <==> Extern in kinds
  {
    if kinds == [] then false else kinds[0] == Extern || AnyExtern(kinds[1..])
  }

  /**
   * `isTerminatingBB`: a block ends control flow when it returns, does not
   * return, is an indirect jump with no known successor, or flows into an
   * external block.
   */
  function IsTerminatingBB(bb: BasicBlock): (r: bool)
    ensures r <==> bb.kind == Ret || bb.kind == NoRet ||
                   (bb.kind == IndJump && |bb.succKinds| == 0) ||
                   exists i :: 0 <= i < |bb.succKinds| && bb.succKinds[i] == Extern
  {
    if bb.kind == Ret || bb.kind == NoRet || (bb.kind == IndJump && |bb.succKinds| == 0) then
      true
    else
      AnyExtern(bb.succKinds)
  }

  /**
   * Only the block types `ret`, `noret` and `indjump` can make a block
   * terminate by themselves; a block of any other type, a conditional return
   * or a normal block without successors among them, terminates exactly when
   * one of its successors is external.
   */
  lemma OtherKindsTerminateOnlyViaExtern(bb: BasicBlock)
    requires bb.kind != Ret && bb.kind != NoRet && bb.kind != IndJump
    ensures IsTerminatingBB(bb) <==> Extern in bb.succKinds
    ensures bb.succKinds == [] ==> !IsTerminatingBB(bb)
  {
  }
}
