// The watcher as the object src/watcher.cc makes of it: one field per queue and
// per counter, changed in place by the six stages of a cycle.
module WatcherUnit {
  import opened Forest
  import opened Queues
  import opened Tokens
  import opened Watcher

  class Unit {
    var inTask: seq<Req>
    var waitingMeta: seq<Req>
    var waitingRead: seq<Req>
    var waitingValue: seq<Req>
    var waitingProcess: seq<Req>
    var outMemoryRead: seq<Req>
    var inMemoryResp: seq<Req>
    var outSend: seq<Req>
    var outWriteList: seq<Req>
    var numInflight: int
    var outgoingData: int
    var outgoingValue: int
    var thrown: bool

    constructor ()
      ensures View() == State(Fresh(), 0, 0, 0, false)
    {
      inTask, waitingMeta, waitingRead, waitingValue, waitingProcess := [], [], [], [], [];
      outMemoryRead, inMemoryResp, outSend, outWriteList := [], [], [], [];
      numInflight, outgoingData, outgoingValue, thrown := 0, 0, 0, false;
    }

    // The state of the unit as the specification in module Watcher sees it.
    ghost function View(): State
      reads this
    {
      State(map[WTask := inTask, WMeta := waitingMeta, WRead := waitingRead, WValue := waitingValue,
                WProc := waitingProcess, WOut := outMemoryRead, WResp := inMemoryResp,
                WSend := outSend, WList := outWriteList],
            numInflight, outgoingData, outgoingValue, thrown)
    }

    method FromWatcherMetaToMemory() returns (busy: bool)
      modifies `waitingMeta, `outMemoryRead
      ensures View() == Step(MetaToMem, old(View()))
      ensures busy == (old(waitingMeta) != [])
    {
      busy := waitingMeta != [];
      if busy {
        var req := waitingMeta[0].(kind := ReadWatcherMetaData, w := 0);
        outMemoryRead := outMemoryRead + [req];
        waitingMeta := waitingMeta[1..];
      }
      assert View().q == Step(MetaToMem, old(View())).q;
    }

    method FromValueToOutMem() returns (busy: bool)
      modifies `waitingValue, `outMemoryRead, `outgoingValue
      ensures View() == Step(ValueToMem, old(View()))
      ensures busy == (old(waitingValue) != [])
    {
      busy := waitingValue != [];
      if busy {
        var req := waitingValue[0];
        outMemoryRead := outMemoryRead + [req.(kind := ReadWatcherValue)];
        outgoingValue := outgoingValue + 1;
        Cursor(waitingValue, req.(w := req.w + 1));
        waitingValue := waitingValue[0 := req.(w := req.w + 1)];
        if req.w + 1 >= Size(req.a) {
          waitingValue := waitingValue[1..];
        }
      }
      assert View().q == Step(ValueToMem, old(View())).q;
    }

    method FromProcessToOut() returns (busy: bool)
      modifies `waitingProcess, `outWriteList, `outSend, `numInflight
      ensures View() == Step(ProcessToOut, old(View()))
      ensures busy == (old(waitingProcess) != [])
    {
      busy := waitingProcess != [];
      if busy {
        var req := waitingProcess[0];
        outWriteList := outWriteList + [req];
        if ReadsClause(req.a, req.w) {
          outSend := outSend + [req.(c := 0)];
        }
        Cursor(waitingProcess, req.(w := req.w + 1));
        waitingProcess := waitingProcess[0 := req.(w := req.w + 1)];
        if req.w + 1 >= Size(req.a) {
          numInflight := numInflight - 1;
          waitingProcess := waitingProcess[1..];
        }
      }
      assert View().q == Step(ProcessToOut, old(View())).q;
    }

    // A list of size zero is popped without the stage reporting busy.
    method FromReadWatcherToMem() returns (busy: bool)
      modifies `waitingRead, `outMemoryRead, `outgoingData, `numInflight
      ensures View() == Step(ReadToMem, old(View()))
      ensures busy == (old(waitingRead) != [] && old(waitingRead)[0].w < Size(old(waitingRead)[0].a))
    {
      busy := false;
      if waitingRead != [] {
        var req := waitingRead[0];
        if req.w >= Size(req.a) {
          waitingRead := waitingRead[1..];
          numInflight := numInflight - 1;
          assert View().q == Pop(old(View()).q, WRead);
        } else {
          busy := true;
          outMemoryRead := outMemoryRead + [req.(kind := ReadWatcherData)];
          outgoingData := outgoingData + 1;
          Cursor(waitingRead, req.(w := req.w + CHUNK));
          waitingRead := waitingRead[0 := req.(w := req.w + CHUNK)];
          if req.w + CHUNK >= Size(req.a) {
            waitingRead := waitingRead[1..];
          }
        }
      }
      assert View().q == Step(ReadToMem, old(View())).q;
    }

    method FromInToRead() returns (busy: bool)
      modifies `inTask, `waitingMeta, `numInflight
      ensures View() == Step(InToRead, old(View()))
      ensures busy == (old(inTask) != [])
      ensures inTask == if busy then old(inTask)[1..] else []
    {
      busy := inTask != [];
      if busy {
        numInflight := numInflight + 1;
        waitingMeta := waitingMeta + [inTask[0].(kind := ReadWatcherMetaData)];
        inTask := inTask[1..];
      }
      assert View().q == Step(InToRead, old(View())).q;
    }

    // The three kinds of response, one branch each.
    method DataResponse()
      requires inMemoryResp != [] && inMemoryResp[0].kind.ReadWatcherData?
      modifies `inMemoryResp, `waitingValue, `outgoingData
      ensures View() == Step(RespToInside, old(View()))
    {
      var req := inMemoryResp[0];
      outgoingData := outgoingData - 1;
      if req.w + CHUNK >= Size(req.a) {
        waitingValue := waitingValue + [req.(w := 0)];
      }
      inMemoryResp := inMemoryResp[1..];
      assert View().q == Step(RespToInside, old(View())).q;
    }

    method ValueResponse()
      requires inMemoryResp != [] && inMemoryResp[0].kind.ReadWatcherValue?
      modifies `inMemoryResp, `waitingProcess, `outgoingValue
      ensures View() == Step(RespToInside, old(View()))
    {
      var req := inMemoryResp[0];
      outgoingValue := outgoingValue - 1;
      if req.w + 1 >= Size(req.a) {
        waitingProcess := waitingProcess + [req.(w := 0)];
      }
      inMemoryResp := inMemoryResp[1..];
      assert View().q == Step(RespToInside, old(View())).q;
    }

    method MetaResponse()
      requires inMemoryResp != [] && inMemoryResp[0].kind.ReadWatcherMetaData?
      modifies `inMemoryResp, `waitingRead
      ensures View() == Step(RespToInside, old(View()))
    {
      waitingRead := waitingRead + [inMemoryResp[0].(w := 0, kind := ReadWatcherData)];
      inMemoryResp := inMemoryResp[1..];
      assert View().q == Step(RespToInside, old(View())).q;
    }

    method FromRespToInsider() returns (busy: bool)
      modifies `inMemoryResp, `waitingValue, `waitingProcess, `waitingRead,
               `outgoingData, `outgoingValue, `thrown
      ensures View() == Step(RespToInside, old(View()))
      ensures busy == (old(inMemoryResp) != [])
    {
      busy := inMemoryResp != [];
      if busy {
        match inMemoryResp[0].kind {
          case ReadWatcherData => DataResponse();
          case ReadWatcherValue => ValueResponse();
          case ReadWatcherMetaData => MetaResponse();
          case _ => thrown := true;
        }
      }
    }

    // The queues that the passes of the accelerator fill and empty.
    method PushTask(req: Req)
      modifies `inTask
      ensures View() == old(View()).(q := Push(old(View()).q, WTask, req))
    {
      inTask := inTask + [req];
      assert View().q == Push(old(View()).q, WTask, req);
    }

    method PushResponse(req: Req)
      modifies `inMemoryResp
      ensures View() == old(View()).(q := Push(old(View()).q, WResp, req))
    {
      inMemoryResp := inMemoryResp + [req];
      assert View().q == Push(old(View()).q, WResp, req);
    }

    method PopMemoryRead() returns (req: Req)
      requires outMemoryRead != []
      modifies `outMemoryRead
      ensures req == old(outMemoryRead[0]) && View() == old(View()).(q := Pop(old(View()).q, WOut))
    {
      req := outMemoryRead[0];
      outMemoryRead := outMemoryRead[1..];
      assert View().q == Pop(old(View()).q, WOut);
    }

    method PopSend() returns (req: Req)
      requires outSend != []
      modifies `outSend
      ensures req == old(outSend[0]) && View() == old(View()).(q := Pop(old(View()).q, WSend))
    {
      req := outSend[0];
      outSend := outSend[1..];
      assert View().q == Pop(old(View()).q, WSend);
    }

    method PopWriteList() returns (req: Req)
      requires outWriteList != []
      modifies `outWriteList
      ensures req == old(outWriteList[0]) && View() == old(View()).(q := Pop(old(View()).q, WList))
    {
      req := outWriteList[0];
      outWriteList := outWriteList[1..];
      assert View().q == Pop(old(View()).q, WList);
    }

    // The stages of a cycle in their order. A cycle in which no stage was busy
    // and no read is outstanding had no task waiting.
    method DoCycle() returns (busy: bool)
      modifies this
      ensures View() == Cycle(old(View()))
      ensures !busy ==> inTask == []
    {
      hide Step, View;
      var b1 := FromWatcherMetaToMemory();
      var b2 := FromValueToOutMem();
      var b3 := FromProcessToOut();
      var b4 := FromReadWatcherToMem();
      var b5 := FromInToRead();
      var b6 := FromRespToInsider();
      busy := b1 || b2 || b3 || b4 || b5 || b6;
    }
  }
}
