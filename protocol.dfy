/** The sequence-exchange protocol of state_machine.py as functions on values:
    which state each state's `__call__` returns, how the stage index moves,
    what `SeqParse` accepts and binds, what `SeqSend` transmits, and the whole
    effect of one tick on the session (`TickSpec`), which the imperative
    `Engine.StateMachine.Tick` is proved to carry out. */
module Protocol {
  import opened Text
  import opened Grammar
  import opened Messages

  /** The state classes. `Base` is a bare `State`, whose `__call__` raises
      `InvalidTransition`. */
  datatype Kind =
    | Base | Initial
    | Bcn | BcnPrnt | BcnSend | BcnWait
    | Free | FreePrnt | FreeSend
    | Seq | SeqParse | SeqSend

  /** What one tick hands to the current state: the configured operating mode
      (read by `InitialState`), the buttons short-pressed during the tick, and
      what `radio.receive()` returns, already decoded to text. */
  datatype Input = Input(mode: Option<string>, shortPress: set<int>, rx: Option<string>)

  /** A state's answer: itself (`Keep`), a newly constructed state whose entry
      action runs at once (`Enter`), or the `InvalidTransition` exception. */
  datatype Next = Keep | Enter(k: Kind) | Raise

  /** Ticks `BcnWait` lets pass before it transmits again. */
  const BeaconTicks := 10

  /** The button that transmits, and the two that step the stage index. */
  const SendButton := 1
  const PrevButton := 0
  const NextButton := 2

  /** The listening state a mode's print, parse, send and wait states
      belong to. */
  function ListenOf(k: Kind): (r: Kind)
    ensures r in {Bcn, Free, Seq, Base, Initial}
    ensures k in {Bcn, BcnPrnt, BcnSend, BcnWait} <==> r == Bcn
    ensures k in {Free, FreePrnt, FreeSend} <==> r == Free
    ensures k in {Seq, SeqParse, SeqSend} <==> r == Seq
  {
    match k
    case Bcn | BcnPrnt | BcnSend | BcnWait => Bcn
    case Free | FreePrnt | FreeSend => Free
    case Seq | SeqParse | SeqSend => Seq
    case _ => k
  }

  /** The state a listening state enters on the send button. */
  function SendOf(k: Kind): Kind {
    match k
    case Bcn => BcnSend
    case Free => FreeSend
    case Seq => SeqSend
    case _ => k
  }

  /** The state a listening state enters when a frame is received. */
  function PrintOf(k: Kind): Kind {
    match k
    case Bcn => BcnPrnt
    case Free => FreePrnt
    case Seq => SeqParse
    case _ => k
  }

  /** The state each state's `__call__` returns. `elapsed` is `BcnWait`'s
      counter after this call's increment; no other state reads it. For `Seq`
      and `Free` this is the decision only: the stage-index update they make
      before it is `Nav`. */
  function Dispatch(k: Kind, inp: Input, elapsed: nat): (r: Next)
    ensures r == Raise <==> k == Base
    ensures k == Initial ==>
      && (r == Enter(Bcn) <==> inp.mode == Some("beacon"))
      && (r == Enter(Seq) <==> inp.mode == Some("sequence"))
      && (r == Enter(Free) <==> inp.mode == Some("free"))
      && (r == Keep <==> inp.mode !in {Some("beacon"), Some("sequence"), Some("free")})
    ensures k == BcnWait ==>
      r == if SendButton in inp.shortPress then Enter(Bcn)
           else if inp.rx.Some? then Enter(BcnPrnt)
           else if elapsed >= BeaconTicks then Enter(BcnSend)
           else Keep
    ensures k in {Bcn, Free, Seq} ==>
      r == if SendButton in inp.shortPress then Enter(SendOf(k))
           else if inp.rx.Some? then Enter(PrintOf(k))
           else Keep
    ensures k in {BcnPrnt, FreePrnt, SeqParse} ==>
      r == Enter(if SendButton in inp.shortPress then SendOf(ListenOf(k)) else ListenOf(k))
    ensures k in {BcnSend, FreeSend, SeqSend} ==> r == Enter(if k == BcnSend then BcnWait else ListenOf(k))
    ensures r in {Enter(BcnPrnt), Enter(FreePrnt), Enter(SeqParse)} ==> inp.rx.Some?
    ensures r != Enter(Base) && r != Enter(Initial)
  {
    var send := SendButton in inp.shortPress;
    match k
    case Base => Raise
    case Initial =>
      if inp.mode == Some("beacon") then Enter(Bcn)
      else if inp.mode == Some("sequence") then Enter(Seq)
      else if inp.mode == Some("free") then Enter(Free)
      else Keep
    case Bcn =>
      if send then Enter(BcnSend) else if inp.rx.Some? then Enter(BcnPrnt) else Keep
    case BcnPrnt => if send then Enter(BcnSend) else Enter(Bcn)
    case BcnSend => Enter(BcnWait)
    case BcnWait =>
      if send then Enter(Bcn)
      else if inp.rx.Some? then Enter(BcnPrnt)
      else if elapsed >= BeaconTicks then Enter(BcnSend)
      else Keep
    case Free =>
      if send then Enter(FreeSend) else if inp.rx.Some? then Enter(FreePrnt) else Keep
    case FreePrnt => if send then Enter(FreeSend) else Enter(Free)
    case FreeSend => Enter(Free)
    case Seq =>
      if send then Enter(SeqSend) else if inp.rx.Some? then Enter(SeqParse) else Keep
    case SeqParse => if send then Enter(SeqSend) else Enter(Seq)
    case SeqSend => Enter(Seq)
  }

  /** The stage-index update of `Seq` and `Free`: button 0 steps back and
      button 2 steps forward, each modulo the template count (Python's `%`
      and Dafny's agree for a positive divisor). */
  function Nav(i: int, n: nat, shortPress: set<int>): (r: int)
    requires n > 0
    ensures 0 <= i < n ==> 0 <= r < n
    ensures 0 <= i < n && PrevButton in shortPress && NextButton in shortPress ==> r == i
    ensures 0 <= i < n && PrevButton in shortPress && NextButton !in shortPress ==>
      r == if i == 0 then n - 1 else i - 1
    ensures 0 <= i < n && PrevButton !in shortPress && NextButton in shortPress ==>
      r == if i == n - 1 then 0 else i + 1
    ensures PrevButton !in shortPress && NextButton !in shortPress ==> r == i
  {
    ModWrap(i, n);
    var back := if PrevButton in shortPress then (i - 1) % n else i;
    ModWrap(back, n);
    if NextButton in shortPress then (back + 1) % n else back
  }

  /** One step back or forward modulo `n` from an index in range. */
  lemma ModWrap(i: int, n: int)
    requires n > 0
    ensures 0 <= i < n ==> (i - 1) % n == if i == 0 then n - 1 else i - 1
    ensures 0 <= i < n ==> (i + 1) % n == if i == n - 1 then 0 else i + 1
  {
    if i == 0 {
      assert -1 == (-1) * n + (n - 1);
    }
    if i == n - 1 {
      assert n == 1 * n + 0;
    }
  }

  /** What `SeqParse` makes of a frame: the new parameter table, a frame to
      ignore, or the `KeyError` of a missing lookup. */
  datatype Outcome = Accepted(params: Params) | NoMatch | MissingKey(key: string)

  /** The callsign binding a matched frame must meet at a stage: from stage 1
      on, the first call is ours; from stage 2 on, the second call is the
      peer's bound at stage 0 or 1. */
  predicate Bound(stage: nat, ts: seq<string>, p: Params)
    requires |ts| == 3
  {
    && (stage >= 1 ==> MyCall in p && p[MyCall] == ts[0])
    && (stage >= 2 ==> TheirCall in p && p[TheirCall] == ts[1])
  }

  /** The keys a successful parse at a stage writes. */
  function Writes(stage: nat): set<string> {
    if stage <= 1 then {TheirCall, TheirGrid}
    else if stage <= 3 then {MyRssi}
    else if stage == 4 then {}
    else PeerKeys
  }

  /** The binding step of `SeqParse.__init__` for a frame already matched by
      the stage's pattern, lookups in the order the source makes them. At
      stage 5 the peer keys go back to their sentinels. */
  function Bind(stage: nat, ts: seq<string>, p: Params): (r: Outcome)
    requires stage < |Patterns| && |ts| == 3
    requires forall k :: 0 <= k < 3 ==> Fits(Patterns[stage][k], ts[k])
    ensures r.Accepted? <==> Bound(stage, ts, p)
    ensures r.MissingKey? ==> r.key in {MyCall, TheirCall} && r.key !in p
    ensures r.Accepted? ==>
      && Writes(stage) <= r.params.Keys
      && (forall k :: k !in Writes(stage) ==> (k in r.params <==> k in p))
      && (forall k :: k !in Writes(stage) && k in p ==> r.params[k] == p[k])
    ensures r.Accepted? && stage <= 1 ==> r.params[TheirCall] == ts[1] && r.params[TheirGrid] == ts[2]
    ensures r.Accepted? && stage == 2 ==> r.params[MyRssi] == ts[2]
    ensures r.Accepted? && stage == 3 ==> |ts[2]| >= 1 && ts[2][0] == 'R' && r.params[MyRssi] == ts[2][1..]
    ensures r.Accepted? && stage == 5 ==> r.params == ResetPeer(p)
  {
    if stage == 0 then Accepted(p[TheirCall := ts[1]][TheirGrid := ts[2]])
    else if MyCall !in p then MissingKey(MyCall)
    else if p[MyCall] != ts[0] then NoMatch
    else if stage == 1 then Accepted(p[TheirCall := ts[1]][TheirGrid := ts[2]])
    else if TheirCall !in p then MissingKey(TheirCall)
    else if p[TheirCall] != ts[1] then NoMatch
    else if stage == 2 then Accepted(p[MyRssi := ts[2]])
    else if stage == 3 then
      assert Patterns[3][2] == RReport && Fits(Patterns[stage][2], ts[2]);
      Accepted(p[MyRssi := ts[2][1..]])
    else if stage == 4 then Accepted(p)
    else Accepted(ResetPeer(p))
  }

  /** `SeqParse.__init__`: upper-case the frame, try only the pattern of the
      current stage, check the callsign binding and, on success, record the
      fields the stage carries. */
  function ParseFrame(stage: int, data: string, p: Params): (r: Outcome)
    ensures Complete(p) ==> !r.MissingKey?
    ensures r.Accepted? <==>
      && 0 <= stage < |Patterns|
      && Match(Upper(data), Patterns[stage]).Some?
      && Bound(stage, Split(Upper(data)), p)
    ensures r.Accepted? ==>
      && Writes(stage) <= r.params.Keys
      && (forall k :: k !in Writes(stage) ==> (k in r.params <==> k in p))
      && (forall k :: k !in Writes(stage) && k in p ==> r.params[k] == p[k])
  {
    var frame := Upper(data);
    if !(0 <= stage < |Patterns|) then NoMatch
    else
      PatternsSpaceFree(stage);
      match Match(frame, Patterns[stage])
      case None => NoMatch
      case Some(ts) => Bind(stage, ts, p)
  }

  /** The three space-separated pieces a stage template renders to. */
  function StageTokens(k: nat, q: Params): (r: seq<string>)
    requires k < |Templates| && Complete(q)
    ensures |r| == 3
  {
    var call, mine := q[TheirCall], q[MyCall];
    if k == 0 then ["CQ", mine, q[MyGrid]]
    else if k == 1 then [call, mine, q[MyGrid]]
    else if k == 2 then [call, mine, q[TheirRssi]]
    else if k == 3 then [call, mine, "R" + q[TheirRssi]]
    else if k == 4 then [call, mine, "RRR"]
    else [call, mine, "73"]
  }

  /** Every stage template renders as its three pieces joined by single
      spaces, which is the frame layout the stage patterns expect. */
  lemma RenderStage(k: nat, q: Params)
    requires k < |Templates| && Complete(q)
    ensures Render(Templates[k], q) == Some(Join(StageTokens(k, q)))
  {
    var ts := StageTokens(k, q);
    Join3(ts[0], ts[1], ts[2]);
    if k == 0 {
      RenderWordField("CQ ", MyCall, MyGrid, q);
      assert "CQ " + (ts[1] + (" " + ts[2])) == "CQ" + " " + (ts[1] + " " + ts[2]);
    } else if k <= 2 {
      RenderCallCallField(TheirCall, MyCall, " ", if k == 1 then MyGrid else TheirRssi, q);
      var x := ts[1] + (" " + ts[2]);
      assert x == ts[1] + " " + ts[2] && ts[0] + (" " + x) == ts[0] + " " + x;
    } else if k == 3 {
      RenderCallCallField(TheirCall, MyCall, " R", TheirRssi, q);
      var r := q[TheirRssi];
      assert ts[2] == "R" + r && " R" + r == " " + ("R" + r);
      assert ts[1] + (" R" + r) == ts[1] + " " + ("R" + r);
      var x := ts[1] + (" R" + r);
      assert ts[0] + (" " + x) == ts[0] + " " + x;
    } else {
      var w := if k == 4 then "RRR" else "73";
      assert Templates[k][3] == Lit(" " + w);
      RenderCallCallWord(TheirCall, MyCall, " " + w, q);
      var x := ts[1] + (" " + w);
      assert x == ts[1] + " " + w && ts[0] + (" " + x) == ts[0] + " " + x;
    }
  }

  /** A frame written as a stage's pieces joined by single spaces (and so
      without lower-case letters) is parsed by binding exactly those pieces. */
  lemma ParseJoined(stage: nat, ts: seq<string>, p: Params)
    requires stage < |Patterns| && |ts| == 3
    requires forall k :: 0 <= k < 3 ==> Fits(Patterns[stage][k], ts[k])
    ensures ParseFrame(stage, Join(ts), p) == Bind(stage, ts, p)
  {
    PatternsSpaceFree(stage);
    forall k | 0 <= k < 3
      ensures NoLower(ts[k])
    {
      FitsNoLower(Patterns[stage][k], ts[k]);
    }
    JoinNoLower(ts);
    UpperNoLower(Join(ts));
    MatchJoin(Patterns[stage], ts);
  }

  /** The exchange works stage by stage: when the peer renders the template
      of stage `k` from its own table `q` and we are at stage `k` with table
      `p`, the frame is accepted as long as its tokens are well formed and
      the two tables agree on who is who, and it binds the peer's values. */
  lemma ExchangeAccepted(k: nat, p: Params, q: Params)
    requires k < |Templates| && Complete(p) && Complete(q)
    requires IsCall(q[MyCall])
    requires k >= 1 ==> IsCall(q[TheirCall]) && q[TheirCall] == p[MyCall]
    requires k >= 2 ==> q[MyCall] == p[TheirCall]
    requires k <= 1 ==> IsGrid(q[MyGrid])
    requires k == 2 || k == 3 ==> IsReport(q[TheirRssi])
    ensures ParseFrame(k, Render(Templates[k], q).value, p).Accepted?
    ensures var r := ParseFrame(k, Render(Templates[k], q).value, p).params;
      && (k <= 1 ==> r == p[TheirCall := q[MyCall]][TheirGrid := q[MyGrid]])
      && (k == 2 || k == 3 ==> r == p[MyRssi := q[TheirRssi]])
      && (k == 4 ==> r == p)
      && (k == 5 ==> r == ResetPeer(p))
  {
    RenderStage(k, q);
    var ts := StageTokens(k, q);
    StageTokensFit(k, q);
    ParseJoined(k, ts, p);
    if k == 3 {
      assert ts[2][1..] == q[TheirRssi];
    }
  }

  /** The pieces of a stage template fit the stage's pattern when the values
      put in them are well formed. */
  lemma StageTokensFit(k: nat, q: Params)
    requires k < |Templates| && Complete(q)
    requires IsCall(q[MyCall])
    requires k >= 1 ==> IsCall(q[TheirCall])
    requires k <= 1 ==> IsGrid(q[MyGrid])
    requires k == 2 || k == 3 ==> IsReport(q[TheirRssi])
    ensures forall i :: 0 <= i < 3 ==> Fits(Patterns[k][i], StageTokens(k, q)[i])
  {
    var ts := StageTokens(k, q);
    if k == 3 {
      assert ts[2][1..] == q[TheirRssi];
    }
  }

  /** The received report is never measured: `theirrssi` keeps its sentinel
      for the whole exchange, so the frames of stages 2 and 3 carry "{rssi}"
      and are turned away by the very stage they are meant for. */
  lemma UnmeasuredReportRejected(k: nat, p: Params, q: Params)
    requires (k == 2 || k == 3) && Complete(q)
    requires IsCall(q[TheirCall]) && IsCall(q[MyCall]) && q[TheirRssi] == "{rssi}"
    ensures ParseFrame(k, Render(Templates[k], q).value, p) == NoMatch
  {
    RenderStage(k, q);
    var c := StageTokens(k, q)[2];
    SentinelReportRejected(k, c);
    RejectLastPiece(k, q[TheirCall], q[MyCall], c, p);
  }

  /** The parse the report templates call for: when a stage-0 or stage-1
      frame is accepted, the signal report `rssi` measured on that frame
      becomes `theirrssi`, so that this side's stage-2 and stage-3 frames
      carry a report. `rssi` is the radio's measurement, `None` when none was
      taken; one that is not a well-formed report is not recorded. Apart from
      `theirrssi` the outcome is `ParseFrame`'s. */
  function ParseFrameMeasured(stage: int, data: string, p: Params, rssi: Option<string>): (r: Outcome)
    ensures r.Accepted? <==> ParseFrame(stage, data, p).Accepted?
    ensures !r.Accepted? ==> r == ParseFrame(stage, data, p)
    ensures r.Accepted? ==> r.params - {TheirRssi} == ParseFrame(stage, data, p).params - {TheirRssi}
    ensures r.Accepted? && Complete(p) ==> Complete(r.params)
    ensures r.Accepted? && (stage == 0 || stage == 1) && rssi.Some? && IsReport(rssi.value) ==>
      TheirRssi in r.params && r.params[TheirRssi] == rssi.value
    ensures r.Accepted? && (stage >= 2 || rssi.None? || !IsReport(rssi.value)) ==>
      r == ParseFrame(stage, data, p)
  {
    var o := ParseFrame(stage, data, p);
    if o.Accepted? && (stage == 0 || stage == 1) && rssi.Some? && IsReport(rssi.value) then
      Accepted(o.params[TheirRssi := rssi.value])
    else o
  }

  /** With the report measured, the exchange gets past stage 2: once this
      side `q` has accepted the peer's stage-0 or stage-1 frame together with
      a report, the stage-2 and stage-3 frames it renders are accepted by the
      peer `p` at the same stage, and the peer records the report as its
      `myrssi`. */
  lemma MeasuredReportAccepted(j: int, k: nat, data: string, q: Params, rssi: string, q': Params, p: Params)
    requires (j == 0 || j == 1) && (k == 2 || k == 3)
    requires Complete(q) && IsCall(q[MyCall]) && IsReport(rssi)
    requires ParseFrameMeasured(j, data, q, Some(rssi)) == Accepted(q')
    requires Complete(p) && IsCall(p[MyCall]) && p[TheirCall] == q[MyCall]
    requires TheirCall in q' && q'[TheirCall] == p[MyCall]
    ensures Complete(q') && IsReport(q'[TheirRssi])
    ensures var f := Render(Templates[k], q');
      f.Some? && ParseFrame(k, f.value, p) == Accepted(p[MyRssi := rssi])
  {
    assert q'[MyCall] == q[MyCall] by {
      assert MyCall in q' - {TheirRssi};
    }
    CompleteRenders(q');
    ExchangeAccepted(k, p, q');
  }

  /** The last piece of a stage-2 or stage-3 frame rendered from the sentinel
      is not a report, even upper-cased. */
  lemma SentinelReportRejected(k: nat, c: string)
    requires k == 2 || k == 3
    requires c == if k == 2 then "{rssi}" else "R" + "{rssi}"
    ensures NoSpace(c) && !Fits(Patterns[k][2], Upper(c))
  {
    assert "R" + "{rssi}" == "R{rssi}";
    assert Upper(c) == if k == 2 then "{RSSI}" else "R{RSSI}";
    assert Upper(c)[|Upper(c)| - 6] == '{';
  }

  /** A frame of two callsigns and a last piece that, upper-cased, does not
      fit the stage's last token is turned away. */
  lemma RejectLastPiece(k: nat, a: string, b: string, c: string, p: Params)
    requires 1 <= k < |Patterns| && IsCall(a) && IsCall(b)
    requires NoSpace(c) && !Fits(Patterns[k][2], Upper(c))
    ensures ParseFrame(k, Join([a, b, c]), p) == NoMatch
  {
    FitsNoLower(Call, a);
    FitsNoLower(Call, b);
    FitsNoSpace(Call, a);
    FitsNoSpace(Call, b);
    UpperLastPiece(a, b, c);
    assert NoSpace(Upper(c));
    SplitJoin([a, b, Upper(c)]);
    PatternsSpaceFree(k);
  }

  /** Upper-casing a frame whose first two pieces are already in capitals
      only touches its last piece. */
  lemma UpperLastPiece(a: string, b: string, c: string)
    requires NoLower(a) && NoLower(b)
    ensures Upper(Join([a, b, c])) == Join([a, b, Upper(c)])
  {
    Join3(a, b, c);
    Join3(a, b, Upper(c));
    UpperConcat(a + " ", b + " " + c);
    UpperConcat(a, " ");
    UpperConcat(b + " ", c);
    UpperConcat(b, " ");
    UpperNoLower(a);
    UpperNoLower(b);
    UpperNoLower(" ");
  }

  /** A frame is parsed at most at one stage: a well-formed frame of another
      stage is turned away. */
  lemma ParseOnlyExpectedStage(i: int, j: int, data: string, p: Params, q: Params)
    requires i != j && ParseFrame(i, data, p).Accepted?
    ensures ParseFrame(j, data, q) == NoMatch
  {
    if 0 <= j < |Patterns| {
      PatternsDisjoint(i, j, Upper(data));
    }
  }

  /** Frames are upper-cased before matching, so the case of a received frame
      makes no difference. */
  lemma ParseIgnoresCase(stage: int, data: string, p: Params)
    ensures ParseFrame(stage, data, p) == ParseFrame(stage, Upper(data), p)
  {
    UpperIdempotent(data);
  }

  /** "cq w2xyz fn20" heard at stage 0 binds the peer's callsign W2XYZ and
      grid FN20. */
  lemma ParseCallingExample(p: Params)
    ensures ParseFrame(0, "cq w2xyz fn20", p) == Accepted(p[TheirCall := "W2XYZ"][TheirGrid := "FN20"])
  {
    var ts := ["CQ", "W2XYZ", "FN20"];
    Join3(ts[0], ts[1], ts[2]);
    assert Join(ts) == "CQ W2XYZ FN20";
    assert Upper("cq w2xyz fn20") == Join(ts);
    assert IsDigit(ts[1][1]);
    assert Fits(Patterns[0][1], ts[1]) && Fits(Patterns[0][2], ts[2]);
    ParseJoined(0, ts, p);
    assert Bind(0, ts, p) == Accepted(p[TheirCall := "W2XYZ"][TheirGrid := "FN20"]);
    ParseIgnoresCase(0, "cq w2xyz fn20", p);
  }

  /** Stage 5 of `SeqParse.__init__` as the source writes it: the four peer
      keys are deleted in turn, each `del` raising `KeyError` for an absent
      key. */
  function DeletePeer(p: Params): (r: Outcome)
    ensures r.Accepted? <==> PeerKeys <= p.Keys
    ensures r.Accepted? ==> r.params == p - PeerKeys
    ensures r.MissingKey? ==> r.key in PeerKeys && r.key !in p
  {
    if TheirCall !in p then MissingKey(TheirCall)
    else if TheirGrid !in p then MissingKey(TheirGrid)
    else if TheirRssi !in p then MissingKey(TheirRssi)
    else if MyRssi !in p then MissingKey(MyRssi)
    else Accepted(p - PeerKeys)
  }

  /** `SeqParse.__init__` as written: identical to `ParseFrame` except that a
      stage-5 frame deletes the peer keys instead of resetting them. */
  function ParseFrameAsWritten(stage: int, data: string, p: Params): (r: Outcome)
    ensures stage != 5 ==> r == ParseFrame(stage, data, p)
    ensures stage == 5 && Complete(p) ==>
      (r.Accepted? <==> ParseFrame(stage, data, p).Accepted?)
    ensures stage == 5 && r.Accepted? ==> r == DeletePeer(p) && r.params == p - PeerKeys
  {
    var r := ParseFrame(stage, data, p);
    if stage == 5 && r.Accepted? then DeletePeer(p) else r
  }

  /** After an accepted 73 the table as written has lost `theircall`, so the
      second template, which the next `Seq` tick renders at index 0, raises
      `KeyError`. The corrected parse keeps every key bound. */
  lemma DeletedPeerBreaksRender(data: string, p: Params)
    requires ParseFrameAsWritten(5, data, p).Accepted?
    ensures Render(Templates[1], ParseFrameAsWritten(5, data, p).params).None?
    ensures Complete(p) ==> Complete(ParseFrame(5, data, p).params)
  {
    assert Templates[1][0] == Field(TheirCall);
  }

  /** The input that shows it: KD1ABC in contact with W2XYZ hears
      "KD1ABC W2XYZ 73" at stage 5. As written the next render fails; the
      corrected table renders the second template with the sentinel. */
  lemma StageFiveExample()
    ensures var p := InitialParams("KD1ABC", "FN42")[TheirCall := "W2XYZ"];
      && ParseFrameAsWritten(5, "KD1ABC W2XYZ 73", p).Accepted?
      && Render(Templates[1], ParseFrameAsWritten(5, "KD1ABC W2XYZ 73", p).params).None?
      && ParseFrame(5, "KD1ABC W2XYZ 73", p) == Accepted(ResetPeer(p))
  {
    var p := InitialParams("KD1ABC", "FN42")[TheirCall := "W2XYZ"];
    var ts := ["KD1ABC", "W2XYZ", "73"];
    Join3(ts[0], ts[1], ts[2]);
    assert Join(ts) == "KD1ABC W2XYZ 73";
    assert IsDigit(ts[0][2]) && IsDigit(ts[1][1]);
    assert forall i :: 0 <= i < 3 ==> Fits(Patterns[5][i], ts[i]);
    ParseJoined(5, ts, p);
    DeletedPeerBreaksRender("KD1ABC W2XYZ 73", p);
  }

  /** What the display is told: one line, or all its lines at once. */
  datatype UiEvent = SetText(line: nat, text: string) | SetAllText(lines: seq<string>)

  /** A running session: the current state, `BcnWait`'s counter, the stage
      index (`msg_idx[0]`), the parameter table (`msg_params`), every frame
      transmitted and every display update, in order. */
  datatype Session = Session(
    state: Kind, elapsed: nat, idx: int, params: Params,
    sent: seq<string>, shown: seq<UiEvent>)

  /** The stage index addresses a template and every key is bound. */
  predicate Inv(s: Session) {
    0 <= s.idx < |Templates| && Complete(s.params)
  }

  /** The lines `Seq` puts on the display: the templates from the current
      stage on, at most three (a Python slice stops at the end of the list),
      each rendered with the table. */
  function StageLines(idx: nat, p: Params): (r: seq<string>)
    requires idx < |Templates| && Complete(p)
    ensures |r| == if idx + 3 <= |Templates| then 3 else |Templates| - idx
    ensures forall j :: 0 <= j < |r| ==> r[j] == Join(StageTokens(idx + j, p))
  {
    CompleteRenders(p);
    var n := if idx + 3 <= |Templates| then 3 else |Templates| - idx;
    forall i | idx <= i < idx + n
      ensures Render(Templates[i], p) == Some(Join(StageTokens(i, p)))
    {
      RenderStage(i, p);
    }
    seq(n, j requires 0 <= j < n => Render(Templates[idx + j], p).value)
  }

  /** The entry action of `SeqParse`: on an accepted frame, show it, store
      the bindings and advance the stage; otherwise change nothing. */
  function Parsed(s: Session, data: string): (r: Session)
    requires Inv(s)
    ensures Inv(r) && r.state == s.state && r.sent == s.sent && r.elapsed == s.elapsed
    ensures ParseFrame(s.idx, data, s.params).Accepted? ==>
      && r.idx == (s.idx + 1) % |Templates|
      && r.params == ParseFrame(s.idx, data, s.params).params
      && r.shown == s.shown + [SetText(2, Upper(data))]
    ensures !ParseFrame(s.idx, data, s.params).Accepted? ==> r == s
  {
    match ParseFrame(s.idx, data, s.params)
    case Accepted(q) =>
      s.(params := q, idx := (s.idx + 1) % |Templates|, shown := s.shown + [SetText(2, Upper(data))])
    case _ => s
  }

  /** `Parsed` step by step: match the upper-cased frame against the current
      stage's pattern, bind the pieces, and on success store, show and
      advance. */
  lemma ParsedSteps(s: Session, data: string)
    requires Inv(s)
    ensures var m := Match(Upper(data), Patterns[s.idx]);
      Parsed(s, data) ==
        if m.Some? && Bind(s.idx, m.value, s.params).Accepted? then
          s.(params := Bind(s.idx, m.value, s.params).params,
             idx := (s.idx + 1) % |Templates|,
             shown := s.shown + [SetText(2, Upper(data))])
        else s
  {
    var m := Match(Upper(data), Patterns[s.idx]);
    if m.Some? {
      assert ParseFrame(s.idx, data, s.params) == Bind(s.idx, m.value, s.params);
    } else {
      assert ParseFrame(s.idx, data, s.params) == NoMatch;
    }
  }

  /** The entry action of `SeqSend`: transmit the current stage's template
      rendered with the table (by `RenderStage`, its three pieces joined by
      spaces), advance the stage and, when the index wraps to 0, put the peer
      keys back to their sentinels. */
  function Sent(s: Session): (r: Session)
    requires Inv(s)
    ensures Inv(r) && r.state == s.state && r.shown == s.shown && r.elapsed == s.elapsed
    ensures r.sent == s.sent + [Join(StageTokens(s.idx, s.params))]
    ensures r.idx == (s.idx + 1) % |Templates|
    ensures r.idx == 0 <==> s.idx == |Templates| - 1
    ensures r.params == if r.idx == 0 then ResetPeer(s.params) else s.params
  {
    var next := (s.idx + 1) % |Templates|;
    s.(sent := s.sent + [Join(StageTokens(s.idx, s.params))],
       idx := next,
       params := if next == 0 then ResetPeer(s.params) else s.params)
  }

  /** The effect of constructing state `k`: its `__init__` runs at once. */
  function Entered(s: Session, k: Kind, rx: Option<string>): (r: Session)
    requires Inv(s)
    requires k in {BcnPrnt, FreePrnt, SeqParse} ==> rx.Some?
    ensures Inv(r) && r.state == k
    ensures k in {BcnPrnt, FreePrnt} ==> r == s.(state := k, shown := s.shown + [SetText(2, rx.value)])
    ensures k == BcnSend ==>
      r == s.(state := k, sent := s.sent + ["BCN " + s.params[MyCall] + " " + s.params[MyGrid]])
    ensures k == BcnWait ==> r == s.(state := k, elapsed := 0)
    ensures k == FreeSend ==> r == s.(state := k, sent := s.sent + [Source(Templates[s.idx])])
    ensures k == SeqParse ==> r == Parsed(s.(state := k), rx.value)
    ensures k == SeqSend ==> r == Sent(s.(state := k))
    ensures k in {Base, Initial, Bcn, Free, Seq} ==> r == s.(state := k)
  {
    var s := s.(state := k);
    match k
    case BcnPrnt => s.(shown := s.shown + [SetText(2, rx.value)])
    case FreePrnt => s.(shown := s.shown + [SetText(2, rx.value)])
    case BcnSend =>
      CompleteRenders(s.params);
      RenderBeacon(s.params);
      s.(sent := s.sent + [Render(BeaconTemplate, s.params).value])
    case BcnWait => s.(elapsed := 0)
    case FreeSend => s.(sent := s.sent + [Source(Templates[s.idx])])
    case SeqParse => Parsed(s, rx.value)
    case SeqSend => Sent(s)
    case _ => s
  }

  /** Acting on a state's answer. `InvalidTransition` leaves the session as
      it was: the assignment of the next state never happens. */
  function Apply(s: Session, n: Next, rx: Option<string>): (r: Session)
    requires Inv(s)
    requires n.Enter? && n.k in {BcnPrnt, FreePrnt, SeqParse} ==> rx.Some?
    ensures Inv(r)
    ensures !n.Enter? ==> r == s
    ensures n.Enter? ==> r.state == n.k
  {
    match n
    case Enter(k) => Entered(s, k, rx)
    case _ => s
  }

  /** One call of `StateMachine.__call__`: the current state consumes the
      tick's input and is replaced by the state it returns. `BcnWait` counts
      the tick first; `Seq` shows its lines first; `Seq` and `Free` apply
      the navigation buttons unless the send button was pressed. */
  function TickSpec(s: Session, inp: Input): (r: Session)
    requires Inv(s)
    ensures Inv(r)
    ensures s.state != Base ==> r.state !in {Base, Initial} || r == s
    ensures s.state == Base ==> r == s
  {
    match s.state
    case BcnWait =>
      var s1 := s.(elapsed := s.elapsed + 1);
      Apply(s1, Dispatch(BcnWait, inp, s1.elapsed), inp.rx)
    case Seq =>
      var s1 := s.(shown := s.shown + [SetAllText(StageLines(s.idx, s.params))]);
      var s2 := if SendButton in inp.shortPress then s1
                else s1.(idx := Nav(s.idx, |Templates|, inp.shortPress));
      Apply(s2, Dispatch(Seq, inp, s.elapsed), inp.rx)
    case Free =>
      var s1 := if SendButton in inp.shortPress then s
                else s.(idx := Nav(s.idx, |Templates|, inp.shortPress));
      Apply(s1, Dispatch(Free, inp, s.elapsed), inp.rx)
    case _ => Apply(s, Dispatch(s.state, inp, s.elapsed), inp.rx)
  }

  /** A tick with no button pressed and nothing received. */
  const Quiet := Input(None, {}, None)

  /** The session after `n` quiet ticks. */
  function QuietTicks(s: Session, n: nat): (r: Session)
    requires Inv(s)
    ensures Inv(r)
  {
    if n == 0 then s else TickSpec(QuietTicks(s, n - 1), Quiet)
  }

  /** While the counter stays below ten, a quiet tick in `BcnWait` only
      counts. */
  lemma {:induction false} BeaconWaitCounts(s: Session, n: nat)
    requires Inv(s) && s.state == BcnWait && s.elapsed + n < BeaconTicks
    ensures QuietTicks(s, n) == s.(elapsed := s.elapsed + n)
  {
    if n > 0 {
      BeaconWaitCounts(s, n - 1);
      var prev := s.(elapsed := s.elapsed + n - 1);
      QuietWaitTick(prev);
      assert QuietTicks(s, n) == TickSpec(prev, Quiet);
    }
  }

  /** One quiet `BcnWait` tick below ten only counts. */
  lemma QuietWaitTick(s: Session)
    requires Inv(s) && s.state == BcnWait && s.elapsed + 1 < BeaconTicks
    ensures TickSpec(s, Quiet) == s.(elapsed := s.elapsed + 1)
  {
    assert Dispatch(BcnWait, Quiet, s.elapsed + 1) == Keep;
  }

  /** From a fresh `BcnWait` the beacon goes out again on the tenth quiet
      tick and not before. */
  lemma BeaconWaitTiming(s: Session)
    requires Inv(s) && s.state == BcnWait && s.elapsed == 0
    ensures forall n :: 0 <= n < BeaconTicks ==> QuietTicks(s, n).state == BcnWait && QuietTicks(s, n).sent == s.sent
    ensures QuietTicks(s, BeaconTicks).state == BcnSend
    ensures QuietTicks(s, BeaconTicks).sent == s.sent + ["BCN " + s.params[MyCall] + " " + s.params[MyGrid]]
  {
    forall n | 0 <= n < BeaconTicks
      ensures QuietTicks(s, n).state == BcnWait && QuietTicks(s, n).sent == s.sent
    {
      BeaconWaitCounts(s, n);
    }
    BeaconWaitCounts(s, BeaconTicks - 1);
    var last := QuietTicks(s, BeaconTicks - 1);
    assert QuietTicks(s, BeaconTicks) == TickSpec(last, Quiet);
    assert Dispatch(BcnWait, Quiet, BeaconTicks) == Enter(BcnSend);
    RenderBeacon(s.params);
  }

  /** The manual beacon: in `Bcn` the send button transmits the beacon at
      once, and the following tick, whatever it brings, starts a fresh
      `BcnWait` whose counter is 0. */
  lemma BeaconSendTick(s: Session, inp: Input, next: Input)
    requires Inv(s) && s.state == Bcn && SendButton in inp.shortPress
    ensures var r := TickSpec(s, inp);
      && r == s.(state := BcnSend, sent := s.sent + ["BCN " + s.params[MyCall] + " " + s.params[MyGrid]])
      && TickSpec(r, next) == r.(state := BcnWait, elapsed := 0)
  {
    assert Dispatch(Bcn, inp, s.elapsed) == Enter(BcnSend);
    var r := TickSpec(s, inp);
    assert Dispatch(BcnSend, next, r.elapsed) == Enter(BcnWait);
  }

  /** In `Bcn` a received frame without the send button is shown, and the
      following tick goes back to listening, or transmits the beacon when it
      brings the send button. */
  lemma BeaconReceiveTick(s: Session, inp: Input, next: Input)
    requires Inv(s) && s.state == Bcn && SendButton !in inp.shortPress && inp.rx.Some?
    ensures var r := TickSpec(s, inp);
      && r == s.(state := BcnPrnt, shown := s.shown + [SetText(2, inp.rx.value)])
      && TickSpec(r, next).state == (if SendButton in next.shortPress then BcnSend else Bcn)
      && TickSpec(r, next).shown == r.shown
  {
    assert Dispatch(Bcn, inp, s.elapsed) == Enter(BcnPrnt);
  }

  /** In `Seq` the send button wins: the current stage goes out and the index
      moves on by exactly one, whatever navigation button came with it. */
  lemma SeqSendTick(s: Session, inp: Input)
    requires Inv(s) && s.state == Seq && SendButton in inp.shortPress
    ensures var r := TickSpec(s, inp);
      && r.state == SeqSend
      && r.sent == s.sent + [Join(StageTokens(s.idx, s.params))]
      && r.idx == (s.idx + 1) % |Templates|
      && r.shown == s.shown + [SetAllText(StageLines(s.idx, s.params))]
  {
  }

  /** A quiet `Seq` tick without the send button shows the lines of the
      stage it started at and steps the index by the navigation buttons. */
  lemma SeqNavTick(s: Session, inp: Input)
    requires Inv(s) && s.state == Seq && SendButton !in inp.shortPress && inp.rx.None?
    ensures TickSpec(s, inp) ==
      s.(idx := Nav(s.idx, |Templates|, inp.shortPress), shown := s.shown + [SetAllText(StageLines(s.idx, s.params))])
  {
  }

  /** A `Seq` tick that receives a frame without the send button shows the
      lines of the stage it started at, steps the index by the navigation
      buttons and then parses the frame at the new stage. */
  lemma SeqReceiveTick(s: Session, inp: Input)
    requires Inv(s) && s.state == Seq && SendButton !in inp.shortPress && inp.rx.Some?
    ensures var r, i := TickSpec(s, inp), Nav(s.idx, |Templates|, inp.shortPress);
      var o := ParseFrame(i, inp.rx.value, s.params);
      && r.state == SeqParse && r.sent == s.sent
      && (o.Accepted? ==> r.idx == (i + 1) % |Templates| && r.params == o.params)
      && (!o.Accepted? ==> r.idx == i && r.params == s.params)
  {
    var i := Nav(s.idx, |Templates|, inp.shortPress);
    var s2 := s.(shown := s.shown + [SetAllText(StageLines(s.idx, s.params))], idx := i);
    assert Dispatch(Seq, inp, s.elapsed) == Enter(SeqParse);
    assert TickSpec(s, inp) == Entered(s2, SeqParse, inp.rx);
    EnteredParse(s2, inp.rx.value);
  }

  /** Entering `SeqParse` parses the received frame at the current stage. */
  lemma EnteredParse(s: Session, data: string)
    requires Inv(s)
    ensures Entered(s, SeqParse, Some(data)) == Parsed(s.(state := SeqParse), data)
  {
  }

  /** In `Free` the send button transmits the selected template as written
      and leaves the index alone; otherwise the navigation buttons step the
      index and a received frame is shown. */
  lemma FreeTick(s: Session, inp: Input)
    requires Inv(s) && s.state == Free
    ensures var r := TickSpec(s, inp);
      && (SendButton in inp.shortPress ==>
            r == s.(state := FreeSend, sent := s.sent + [Source(Templates[s.idx])]))
      && (SendButton !in inp.shortPress ==>
            && r.idx == Nav(s.idx, |Templates|, inp.shortPress)
            && r.sent == s.sent && r.params == s.params
            && r.state == (if inp.rx.Some? then FreePrnt else Free)
            && r.shown == s.shown + (if inp.rx.Some? then [SetText(2, inp.rx.value)] else []))
  {
  }

  /** The six frames of an exchange, in stage order, as rendered from `p`. */
  function ExchangeFrames(p: Params): (r: seq<string>)
    requires Complete(p)
    ensures |r| == |Templates|
    ensures forall k :: 0 <= k < |Templates| ==> r[k] == Join(StageTokens(k, p))
  {
    seq(|Templates|, k requires 0 <= k < |Templates| => Join(StageTokens(k, p)))
  }

  /** The session after `n` consecutive `SeqSend` entry actions. */
  function Sends(s: Session, n: nat): (r: Session)
    requires Inv(s)
    ensures Inv(r)
  {
    if n == 0 then s else Sent(Sends(s, n - 1))
  }

  /** Until the last stage is sent, sending from stage 0 only advances the
      index and records the stage frames; the table is untouched. */
  lemma {:induction false} SendsFromZero(s: Session, n: nat)
    requires Inv(s) && s.idx == 0 && n < |Templates|
    ensures Sends(s, n).idx == n && Sends(s, n).params == s.params
    ensures Sends(s, n).sent == s.sent + ExchangeFrames(s.params)[..n]
  {
    if n > 0 {
      SendsFromZero(s, n - 1);
      var prev := Sends(s, n - 1);
      SentBeforeLast(prev);
      TakeSnoc(ExchangeFrames(s.params), n);
    }
  }

  /** Sending any stage but the last moves to the next stage and keeps the
      table. */
  lemma SentBeforeLast(s: Session)
    requires Inv(s) && s.idx < |Templates| - 1
    ensures Sent(s).idx == s.idx + 1 && Sent(s).params == s.params
    ensures Sent(s).sent == s.sent + [Join(StageTokens(s.idx, s.params))]
  {
    assert (s.idx + 1) % |Templates| == s.idx + 1;
  }

  /** A whole exchange sent from stage 0 transmits the six stage frames in
      order and ends at stage 0 with the peer keys reset. */
  lemma SendCycle(s: Session)
    requires Inv(s) && s.idx == 0
    ensures Sends(s, |Templates|).idx == 0
    ensures Sends(s, |Templates|).params == ResetPeer(s.params)
    ensures Sends(s, |Templates|).sent == s.sent + ExchangeFrames(s.params)
  {
    SendsFromZero(s, |Templates| - 1);
    var prev := Sends(s, |Templates| - 1);
    assert Sends(s, |Templates|) == Sent(prev);
    SentLast(prev);
    var f := ExchangeFrames(s.params);
    TakeSnoc(f, |f|);
    assert f[..|f|] == f;
  }

  /** Sending the last stage wraps to stage 0 and resets the peer keys. */
  lemma SentLast(s: Session)
    requires Inv(s) && s.idx == |Templates| - 1
    ensures Sent(s).idx == 0 && Sent(s).params == ResetPeer(s.params)
    ensures Sent(s).sent == s.sent + [Join(StageTokens(s.idx, s.params))]
  {
    assert (s.idx + 1) % |Templates| == 0;
  }

  /** Repeating a whole exchange leaves the table as one exchange left it. */
  lemma SendCycleRepeats(s: Session)
    requires Inv(s) && s.idx == 0
    ensures Sends(Sends(s, |Templates|), |Templates|).idx == 0
    ensures Sends(Sends(s, |Templates|), |Templates|).params == Sends(s, |Templates|).params
  {
    SendCycle(s);
    SendCycle(Sends(s, |Templates|));
    ResetPeerIdempotent(s.params);
  }
}
