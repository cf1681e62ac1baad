// The clause unit as the object of include/clause.h and src/clause.cc: one field
// per queue and per counter, changed in place.
module ClauseUnit {
  import opened Clause
  import opened Forest
  import opened Queues
  import opened Tokens

  class Unit {
    var inTask: seq<Req>
    var dataWaiting: seq<Req>
    var valueWaiting: seq<Req>
    var processWaiting: seq<Req>
    var outMemoryRead: seq<Req>
    var inMemoryResp: seq<Req>
    var out: seq<Req>
    var outClauseWrite: seq<Req>
    var currentInflight: int
    var onGoing: int
    ghost var lost: nat

    constructor ()
      ensures View() == State(Fresh(), 0, 0, 0)
    {
      inTask, dataWaiting, valueWaiting, processWaiting := [], [], [], [];
      outMemoryRead, inMemoryResp, out, outClauseWrite := [], [], [], [];
      currentInflight, onGoing, lost := 0, 0, 0;
    }

    // The state of the unit as the specification in module Clause sees it.
    ghost function View(): State
      reads this
    {
      State(map[CTask := inTask, CData := dataWaiting, CValue := valueWaiting,
                CProc := processWaiting, COut := outMemoryRead, CResp := inMemoryResp,
                CGen := out, CWrite := outClauseWrite],
            currentInflight, onGoing, lost)
    }

    method TaskToDataWaiting() returns (busy: bool)
      modifies `inTask, `dataWaiting, `currentInflight
      ensures View() == Step(TaskToData, old(View()))
      ensures busy == !Idle(TaskToData, old(View()))
    {
      busy := inTask != [] && |dataWaiting| < DATA_SIZE;
      if busy {
        currentInflight := currentInflight + 1;
        dataWaiting := dataWaiting + [inTask[0].(kind := ReadClauseData, c := 0)];
        inTask := inTask[1..];
      }
      assert View().q == Step(TaskToData, old(View())).q;
    }

    method DataWaitingToMemOut() returns (busy: bool)
      modifies `dataWaiting, `outMemoryRead
      ensures View() == Step(DataToMem, old(View()))
      ensures busy == !Idle(DataToMem, old(View()))
    {
      busy := dataWaiting != [];
      if busy {
        var req := dataWaiting[0];
        outMemoryRead := outMemoryRead + [req.(kind := ReadClauseData)];
        Cursor(dataWaiting, req.(c := req.c + CHUNK));
        dataWaiting := dataWaiting[0 := req.(c := req.c + CHUNK)];
        if req.c + CHUNK >= Literals(req.a, req.w) {
          dataWaiting := dataWaiting[1..];
        }
      }
      assert View().q == Step(DataToMem, old(View())).q;
    }

    method ValueWaitingToMemOut() returns (busy: bool)
      modifies `valueWaiting, `outMemoryRead
      ensures View() == Step(ValueToMem, old(View()))
      ensures busy == !Idle(ValueToMem, old(View()))
    {
      busy := valueWaiting != [];
      if busy {
        var req := valueWaiting[0];
        outMemoryRead := outMemoryRead + [req.(kind := ReadClauseValue)];
        Cursor(valueWaiting, req.(c := req.c + 1));
        valueWaiting := valueWaiting[0 := req.(c := req.c + 1)];
        if req.c + 1 >= Literals(req.a, req.w) {
          valueWaiting := valueWaiting[1..];
        }
      }
      assert View().q == Step(ValueToMem, old(View())).q;
    }

    method MemInToComp() returns (busy: bool)
      modifies `inMemoryResp, `valueWaiting, `processWaiting, `lost
      ensures View() == Step(MemIn, old(View()))
      ensures busy == !Idle(MemIn, old(View()))
    {
      busy := false;
      if inMemoryResp != [] {
        var req := inMemoryResp[0];
        if req.kind.ReadClauseData? && |valueWaiting| < DATA_SIZE {
          busy := true;
          DataResponse();
        } else if |processWaiting| < PROCESS_SIZE {
          busy := true;
          ValueResponse();
        }
      }
    }

    // The two branches of MemInToComp.
    method DataResponse()
      requires inMemoryResp != [] && MemBranch(View(), inMemoryResp[0]).AsData?
      modifies `inMemoryResp, `valueWaiting
      ensures View() == Step(MemIn, old(View()))
    {
      var req := inMemoryResp[0];
      if req.c + CHUNK >= Literals(req.a, req.w) {
        valueWaiting := valueWaiting + [req.(kind := ReadClauseValue, c := 0)];
      }
      inMemoryResp := inMemoryResp[1..];
      assert View().q == Step(MemIn, old(View())).q;
    }

    method ValueResponse()
      requires inMemoryResp != [] && MemBranch(View(), inMemoryResp[0]).AsValue?
      modifies `inMemoryResp, `processWaiting, `lost
      ensures View() == Step(MemIn, old(View()))
    {
      var req := inMemoryResp[0];
      lost := lost + if Drops(MemIn, View()) then 1 else 0;
      if req.c + 1 >= Literals(req.a, req.w) {
        processWaiting := processWaiting + [req.(c := 0)];
      }
      inMemoryResp := inMemoryResp[1..];
      assert View().q == Step(MemIn, old(View())).q;
    }

    method ProcessWaitingToOut() returns (busy: bool)
      modifies `processWaiting, `out, `outClauseWrite, `currentInflight
      ensures View() == Step(ProcessToOut, old(View()))
      ensures busy == !Idle(ProcessToOut, old(View()))
    {
      busy := processWaiting != [];
      if busy {
        var req := processWaiting[0];
        if req.c + 1 >= Literals(req.a, req.w) {
          var implied := Child(req.a, req.w);
          if implied.Implies? {
            out := out + [Req(ReadWatcherMetaData, implied.child, 0, 0)];
          }
          outClauseWrite := outClauseWrite + [req];
          processWaiting := processWaiting[1..];
          currentInflight := currentInflight - 1;
        } else {
          processWaiting := [req.(c := req.c + 1)] + processWaiting[1..];
        }
      }
      assert View().q == Step(ProcessToOut, old(View())).q;
    }

    // The stages of a cycle in their order.
    method DoCycle() returns (busy: bool)
      modifies this
      ensures View() == Cycle(old(View()))
    {
      hide Step, View;
      var b1 := ProcessWaitingToOut();
      var b2 := ValueWaitingToMemOut();
      var b3 := DataWaitingToMemOut();
      var b4 := MemInToComp();
      var b5 := TaskToDataWaiting();
      busy := b1 || b2 || b3 || b4 || b5;
    }

    // The interface through which reads leave and responses come back.
    method PopFromOutMemoryRead() returns (req: Req)
      requires outMemoryRead != []
      modifies `outMemoryRead, `onGoing
      ensures req == old(outMemoryRead)[0]
      ensures View() == old(View()).(q := Pop(old(View()).q, COut), ongoing := old(onGoing) + 1)
    {
      req := outMemoryRead[0];
      onGoing := onGoing + 1;
      outMemoryRead := outMemoryRead[1..];
      assert View().q == Pop(old(View()).q, COut);
    }

    method PushToInTask(req: Req)
      modifies `inTask
      ensures View() == old(View()).(q := Push(old(View()).q, CTask, req))
    {
      inTask := inTask + [req];
      assert View().q == Push(old(View()).q, CTask, req);
    }

    method PopFromOut() returns (req: Req)
      requires out != []
      modifies `out
      ensures req == old(out[0]) && View() == old(View()).(q := Pop(old(View()).q, CGen))
    {
      req := out[0];
      out := out[1..];
      assert View().q == Pop(old(View()).q, CGen);
    }

    method PopFromOutClauseWrite() returns (req: Req)
      requires outClauseWrite != []
      modifies `outClauseWrite
      ensures req == old(outClauseWrite[0]) && View() == old(View()).(q := Pop(old(View()).q, CWrite))
    {
      req := outClauseWrite[0];
      outClauseWrite := outClauseWrite[1..];
      assert View().q == Pop(old(View()).q, CWrite);
    }

    // Throws, and takes nothing, when no read is outstanding.
    method PushToInMemoryResp(req: Req) returns (ok: bool)
      modifies `inMemoryResp, `onGoing
      ensures ok == (old(onGoing) > 0)
      ensures ok ==> View() == old(View()).(q := Push(old(View()).q, CResp, req), ongoing := old(onGoing) - 1)
      ensures !ok ==> inMemoryResp == old(inMemoryResp)
    {
      onGoing := onGoing - 1;
      ok := onGoing >= 0;
      if ok {
        inMemoryResp := inMemoryResp + [req];
      }
      assert ok ==> View().q == Push(old(View()).q, CResp, req);
    }
  }
}
