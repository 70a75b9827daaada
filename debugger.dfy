/**
 * The engine's debugger context (crates/wasmtime/src/debugger.rs): a list
 * of breakpoints that grows by appending and is searched front to back by
 * program counter, and the null agent that never stops execution.
 *
 * `BreakpointData` is known here only by its program counter and an
 * opaque payload; the engine reference, the agent behind its mutex and the
 * user data slot are not modelled.
 */
module Debugger {
  import opened Base

  datatype BreakpointData = BreakpointData(pc: U64, payload: nat)

  datatype DebuggerPauseKind = PauseKind(name: string)

  datatype DebuggerResumeAction = Continue | OtherAction(name: string)

  /** `NullDebuggerAgent::pause`: whatever the pause, execution goes on. */
  function NullAgentPause(kind: DebuggerPauseKind): (a: DebuggerResumeAction)
    ensures a == Continue
  {
    Continue
  }

  /** The first breakpoint at `addr`, as `iter().find` returns it. */
  function FindFirst(bps: seq<BreakpointData>, addr: U64): (r: Option<BreakpointData>)
    ensures r.None? <==> forall i :: 0 <= i < |bps| ==> bps[i].pc != addr
    ensures r.Some? ==> exists i :: (0 <= i < |bps| && bps[i] == r.value && r.value.pc == addr
                                     && forall j :: 0 <= j < i ==> bps[j].pc != addr)
    decreases |bps|
  {
    if bps == [] then None
    else if bps[0].pc == addr then Some(bps[0])
    else
      var r := FindFirst(bps[1..], addr);
      assert forall i :: 1 <= i < |bps| ==> bps[1..][i - 1] == bps[i];
      r
  }

  /** Appending breakpoints never changes a breakpoint already found, and
   *  an address without one is looked up among the new ones. */
  lemma {:induction false} FindFirstAppend(bps: seq<BreakpointData>, more: seq<BreakpointData>, addr: U64)
    ensures FindFirst(bps + more, addr) == if FindFirst(bps, addr).Some? then FindFirst(bps, addr) else FindFirst(more, addr)
    decreases |bps|
  {
    if bps != [] {
      assert (bps + more)[1..] == bps[1..] + more;
      FindFirstAppend(bps[1..], more, addr);
    } else {
      assert bps + more == more;
    }
  }

  class EngineDebuggerContext {
    var breakpoints: seq<BreakpointData>

    /** `new_inner`: no breakpoints yet. */
    constructor()
      ensures breakpoints == []
    {
      breakpoints := [];
    }

    /** `add_breakpoints`: the new ones go after the old, in order. */
    method AddBreakpoints(it: seq<BreakpointData>)
      modifies this
      ensures breakpoints == old(breakpoints) + it
    {
      breakpoints := breakpoints + it;
    }

    /** `find_breakpoint`: the earliest breakpoint at `addr`, if there is
     *  one. */
    function FindBreakpoint(addr: U64): (r: Option<BreakpointData>)
      reads this
      ensures r.None? <==> forall i :: 0 <= i < |breakpoints| ==> breakpoints[i].pc != addr
      ensures r.Some? ==> r.value in breakpoints && r.value.pc == addr
      ensures r.Some? ==> exists i :: (0 <= i < |breakpoints| && breakpoints[i] == r.value
                                       && forall j :: 0 <= j < i ==> breakpoints[j].pc != addr)
    {
      FindFirst(breakpoints, addr)
    }
  }
}
