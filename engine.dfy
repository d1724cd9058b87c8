/** The machine of state_machine.py as objects that change in place.

    `StateMachine` owns the session context the states share: the template
    list, the stage index (the cell `msg_idx[0]`), the parameter table
    (`msg_params`), and stands-ins for the radio and the display that record
    what was transmitted and shown. `WaitTimer` is the counter a `BcnWait`
    state carries. Every method is proved to carry out the value-level
    specification of module `Protocol`. */
module Engine {
  import opened Text
  import opened Grammar
  import opened Messages
  import opened Protocol

  /** The exception a bare `State` raises when it is called. */
  datatype Error = InvalidTransition

  /** The `_elapsed_time` counter of one `BcnWait` state. */
  class WaitTimer {
    var elapsed: nat

    /** `BcnWait.__init__` */
    constructor ()
      ensures elapsed == 0
    {
      elapsed := 0;
    }

    /** `BcnWait.__call__`: count the tick; leave for `Bcn` on the send
        button; otherwise act as `Bcn` would with no button pressed and, if
        that keeps the state, transmit again once ten ticks have passed. */
    method Call(inp: Input) returns (next: Next)
      modifies this
      ensures elapsed == old(elapsed) + 1
      ensures next == Dispatch(BcnWait, inp, elapsed)
    {
      elapsed := elapsed + 1;
      if SendButton in inp.shortPress {
        return Enter(Bcn);
      }
      var tmp := Dispatch(Bcn, inp.(shortPress := {}), elapsed);
      if tmp == Keep && elapsed >= BeaconTicks {
        return Enter(BcnSend);
      }
      return tmp;
    }
  }

  class StateMachine {
    var state: Kind
    var timer: WaitTimer
    const msgs: seq<Template>
    var idx: int
    var params: Params
    /** Every frame handed to `radio.transmit`, in order. */
    var sent: seq<string>
    /** Every `ui.set_text` and `ui.set_all_text` call, in order. */
    var shown: seq<UiEvent>

    /** The machine as a value of the specification. */
    ghost function Abs(): Session
      reads this, timer
    {
      Session(state, timer.elapsed, idx, params, sent, shown)
    }

    ghost predicate Valid()
      reads this, timer
    {
      msgs == Templates && Inv(Abs())
    }

    /** `StateMachine.__init__`: the initial state, stage 0, the six
        templates and the table built from the configured callsign and
        grid locator. */
    constructor (callsign: string, grid: string)
      ensures Valid()
      ensures Abs() == Session(Initial, 0, 0, InitialParams(callsign, grid), [], [])
    {
      state := Initial;
      timer := new WaitTimer();
      msgs := Templates;
      idx := 0;
      params := InitialParams(callsign, grid);
      sent := [];
      shown := [];
    }

    /** `StateMachine.__call__`: hand the tick to the current state and
        replace it by the state it returns. A bare `State` raises
        `InvalidTransition` and the machine is left as it was. */
    method Tick(inp: Input) returns (err: Option<Error>)
      requires Valid()
      modifies this, timer
      ensures Valid()
      ensures Abs() == TickSpec(old(Abs()), inp)
      ensures err == if old(state) == Base then Some(InvalidTransition) else None
    {
      err := None;
      var next: Next;
      match state {
        case Base =>
          return Some(InvalidTransition);
        case BcnWait =>
          next := timer.Call(inp);
        case Seq =>
          shown := shown + [SetAllText(StageLines(idx, params))];
          if SendButton in inp.shortPress {
            next := Enter(SeqSend);
          } else {
            Navigate(inp.shortPress);
            next := if inp.rx.Some? then Enter(SeqParse) else Keep;
          }
        case Free =>
          if SendButton in inp.shortPress {
            next := Enter(FreeSend);
          } else {
            Navigate(inp.shortPress);
            next := if inp.rx.Some? then Enter(FreePrnt) else Keep;
          }
        case _ =>
          next := Dispatch(state, inp, timer.elapsed);
      }
      if next.Enter? {
        EnterState(next.k, inp.rx);
      }
    }

    /** The navigation of `Seq` and `Free`: button 0 steps the stage index
        back and button 2 steps it forward, each modulo the template count. */
    method Navigate(buttons: set<int>)
      requires Valid()
      modifies this
      ensures Valid()
      ensures Abs() == old(Abs()).(idx := Nav(old(idx), |Templates|, buttons))
    {
      if PrevButton in buttons {
        idx := (idx - 1) % |msgs|;
      }
      if NextButton in buttons {
        idx := (idx + 1) % |msgs|;
      }
    }

    /** Construct state `k`, running its `__init__`. */
    method EnterState(k: Kind, rx: Option<string>)
      requires Valid()
      requires k in {BcnPrnt, FreePrnt, SeqParse} ==> rx.Some?
      modifies this
      ensures Valid()
      ensures Abs() == Entered(old(Abs()), k, rx)
    {
      state := k;
      match k {
        case BcnPrnt =>
          shown := shown + [SetText(2, rx.value)];
        case FreePrnt =>
          shown := shown + [SetText(2, rx.value)];
        case BcnSend =>
          CompleteRenders(params);
          sent := sent + [Render(BeaconTemplate, params).value];
        case BcnWait =>
          timer := new WaitTimer();
        case FreeSend =>
          sent := sent + [Source(msgs[idx])];
        case SeqParse =>
          ParseIn(rx.value);
        case SeqSend =>
          SendStage();
        case _ =>
      }
    }

    /** `SeqParse.__init__`: upper-case the frame, try the pattern of the
        current stage only and, when the frame is taken, show it and advance
        the stage. */
    method ParseIn(data: string)
      requires Valid()
      modifies this
      ensures Valid()
      ensures Abs() == Parsed(old(Abs()), data)
    {
      ghost var s0 := Abs();
      ParsedSteps(s0, data);
      var frame := Upper(data);
      var parsed := false;
      var m := Match(frame, Patterns[idx]);
      if m.Some? {
        parsed := BindIn(m.value);
      }
      if parsed {
        assert m.Some? && Bind(s0.idx, m.value, s0.params).Accepted?;
        assert params == Bind(s0.idx, m.value, s0.params).params;
        shown := shown + [SetText(2, frame)];
        idx := (idx + 1) % |msgs|;
        assert Abs() == Parsed(s0, data);
      } else {
        assert !(m.Some? && Bind(s0.idx, m.value, s0.params).Accepted?);
        assert Abs() == s0;
      }
    }

    /** The per-stage part of `SeqParse.__init__` for a frame the stage's
        pattern matched: check the callsign binding and record the stage's
        fields in the table. */
    method BindIn(ts: seq<string>) returns (parsed: bool)
      requires Valid() && |ts| == 3
      requires forall k :: 0 <= k < 3 ==> Fits(Patterns[idx][k], ts[k])
      modifies this`params
      ensures parsed == Bind(idx, ts, old(params)).Accepted?
      ensures params == if parsed then Bind(idx, ts, old(params)).params else old(params)
    {
      parsed := false;
      if idx == 0 {
        params := params[TheirCall := ts[1]][TheirGrid := ts[2]];
        parsed := true;
      } else if idx == 1 {
        if params[MyCall] == ts[0] {
          params := params[TheirCall := ts[1]][TheirGrid := ts[2]];
          parsed := true;
        }
      } else if params[MyCall] == ts[0] && params[TheirCall] == ts[1] {
        if idx == 2 {
          params := params[MyRssi := ts[2]];
        } else if idx == 3 {
          assert Patterns[3][2] == RReport;
          params := params[MyRssi := ts[2][1..]];
        } else if idx == 5 {
          params := params[TheirCall := "{theircall}"];
          params := params[TheirGrid := "{theirgrid}"];
          params := params[TheirRssi := "{rssi}"];
          params := params[MyRssi := "{rssi}"];
        }
        parsed := true;
      }
    }

    /** `SeqSend.__init__`: transmit the current stage's template rendered
        with the table, advance the stage and, when the index wraps to 0,
        put the peer keys back to their sentinels. */
    method SendStage()
      requires Valid()
      modifies this
      ensures Valid()
      ensures Abs() == Sent(old(Abs()))
    {
      CompleteRenders(params);
      RenderStage(idx, params);
      var m := Render(msgs[idx], params).value;
      sent := sent + [m];
      idx := (idx + 1) % |msgs|;
      if idx == 0 {
        params := params[TheirCall := "{theircall}"];
        params := params[TheirGrid := "{theirgrid}"];
        params := params[TheirRssi := "{rssi}"];
        params := params[MyRssi := "{rssi}"];
      }
    }
  }
}
