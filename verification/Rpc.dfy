/** Matching replies to requests: a requester thread per call, one reader thread, and a server that may send anything. */
module Rpc {
  import opened Lists
  import opened Schema

  /** The `id` member of a message, as JSON parsing leaves it; `NonFinite` is an infinity or not a number. */
  datatype JsonId = Number(value: real) | NonFinite | Boolean(flag: bool) | Text(text: string) | NullId | Container

  datatype Response = Response(id: JsonId, payload: string)

  /**
   * A line of the server, as far as the reader looks: bytes that do not decode, a blank line or one that is not JSON, a bare
   * number, boolean or null, a string, an array with the strings among its elements, or an object; `settled` when it has a
   * `result` or an `error`.
   */
  datatype Line =
    | Undecodable
    | Noise
    | Scalar
    | Quoted(text: string)
    | Listed(strings: seq<string>)
    | Message(id: Option<JsonId>, settled: bool, payload: string)

  /** Python's `in` finds members of an object or an array and parts of a string. */
  predicate LooksLikeReply(line: Line) {
    match line
    case Undecodable => false
    case Noise => false
    case Scalar => false
    case Quoted(text) => Includes(text, "id") && (Includes(text, "result") || Includes(text, "error"))
    case Listed(strings) => "id" in strings && ("result" in strings || "error" in strings)
    case Message(id, settled, _) => id.Some? && settled
  }

  /**
   * The lines that raise in the reader outside of any handler: reading them fails; `in` is not defined on a bare value; only
   * an object has `get`; and a list or an object is no dictionary key, which an empty table does not notice.
   */
  predicate Raises(line: Line, pending: map<int, nat>) {
    match line
    case Undecodable => true
    case Scalar => true
    case Message(_, _, _) => LooksLikeReply(line) && line.id.value.Container? && pending != map[]
    case _ => LooksLikeReply(line)
  }

  /**
   * The dictionary key that an identifier is equal to: Python's numbers compare across types, and its booleans are the
   * numbers one and zero.
   */
  function KeyOf(id: JsonId): Option<int> {
    match id
    case Number(x) => if x.Floor as real == x then Some(x.Floor) else None
    case Boolean(b) => Some(if b then 1 else 0)
    case _ => None
  }

  /** Where a call stands. `Expired` has seen its wait end but has not yet withdrawn its entry. */
  datatype Phase = Drawn | Registered | Waiting | Expired | Answered(response: Response) | TimedOut | SendFailed

  /** One call of `request`; `puts` counts what was ever put into its queue. */
  datatype Call = Call(id: int, phase: Phase, queue: seq<Response>, puts: nat)

  /** The reader thread is between messages, or has taken a queue out of the table and not yet filled it, or has died. */
  datatype Reader = Idle | Holding(call: nat, response: Response) | Dead

  /** `pending` maps a request identifier to the call whose queue waits for it. */
  datatype State = State(lastId: nat, calls: seq<Call>, pending: map<int, nat>, reader: Reader)

  const INITIAL := State(0, [], map[], Idle)

  /** The atomic steps of all threads; `Read` is one line from the server. */
  datatype Step =
    | Draw
    | Register(call: nat)
    | Send(call: nat)
    | FailSend(call: nat)
    | Take(call: nat)
    | Expire(call: nat)
    | Withdraw(call: nat)
    | Read(line: Line)
    | Put

  predicate InPhase(s: State, h: nat, p: Phase) {
    h < |s.calls| && s.calls[h].phase == p
  }

  /** A queue holds one response; putting into a full queue would block. */
  predicate Enabled(s: State, step: Step) {
    match step
    case Draw => true
    case Register(h) => InPhase(s, h, Drawn)
    case Send(h) => InPhase(s, h, Registered)
    case FailSend(h) => InPhase(s, h, Registered)
    case Take(h) => InPhase(s, h, Waiting) && s.calls[h].queue != []
    case Expire(h) => InPhase(s, h, Waiting) && s.calls[h].queue == []
    case Withdraw(h) => InPhase(s, h, Expired)
    case Read(_) => s.reader.Idle?
    case Put => s.reader.Holding? && s.reader.call < |s.calls| && s.calls[s.reader.call].queue == []
  }

  function Moved(s: State, h: nat, phase: Phase): State
    requires h < |s.calls|
  {
    s.(calls := s.calls[h := s.calls[h].(phase := phase)])
  }

  function Next(s: State, step: Step): State
    requires Enabled(s, step)
  {
    match step
    case Draw => s.(lastId := s.lastId + 1, calls := s.calls + [Call(s.lastId + 1, Drawn, [], 0)])
    case Register(h) => Moved(s, h, Registered).(pending := s.pending[s.calls[h].id := h])
    case Send(h) => Moved(s, h, Waiting)
    case FailSend(h) => Moved(s, h, SendFailed)
    case Take(h) =>
      s.(calls := s.calls[h := s.calls[h].(phase := Answered(s.calls[h].queue[0]), queue := s.calls[h].queue[1..])])
    case Expire(h) => Moved(s, h, Expired)
    case Withdraw(h) => Moved(s, h, TimedOut).(pending := s.pending - {s.calls[h].id})
    case Read(line) =>
      if Raises(line, s.pending) then s.(reader := Dead)
      else if !LooksLikeReply(line) then s
      else
        var key := KeyOf(line.id.value);
        if key.Some? && key.value in s.pending
        then s.(pending := s.pending - {key.value}, reader := Holding(s.pending[key.value], Response(line.id.value, line.payload)))
        else s
    case Put =>
      var h := s.reader.call;
      s.(calls := s.calls[h := s.calls[h].(queue := [s.reader.response], puts := s.calls[h].puts + 1)], reader := Idle)
  }

  /** The state after an interleaving, in which steps that are not enabled do not happen. */
  function StateAfter(steps: seq<Step>): State {
    if steps == [] then INITIAL
    else
      var before := StateAfter(steps[..|steps| - 1]);
      if Enabled(before, steps[|steps| - 1]) then Next(before, steps[|steps| - 1]) else before
  }

  predicate Held(s: State, h: nat) {
    s.reader.Holding? && s.reader.call == h
  }

  /** A call waits in the table, or its queue is in the reader's hand, or has been filled: one at a time. */
  function Places(s: State, h: nat): nat
    requires h < |s.calls|
  {
    (if s.calls[h].id in s.pending then 1 else 0) + (if Held(s, h) then 1 else 0) + s.calls[h].puts
  }

  ghost predicate Fits(r: Response, c: Call) {
    KeyOf(r.id) == Some(c.id)
  }

  ghost predicate CallOk(s: State, h: nat)
    requires h < |s.calls|
  {
    var c := s.calls[h];
    && c.id == h + 1
    && |c.queue| <= c.puts
    && (forall r :: r in c.queue ==> Fits(r, c))
    && match c.phase
       case Drawn => Places(s, h) == 0
       case Registered => Places(s, h) == 1 && |c.queue| == c.puts
       case Waiting => Places(s, h) == 1 && |c.queue| == c.puts
       case Expired => Places(s, h) == 1 && |c.queue| == c.puts
       case SendFailed => Places(s, h) == 1 && |c.queue| == c.puts
       case Answered(r) => Fits(r, c) && c.puts == 1 && c.queue == [] && Places(s, h) == 1
       case TimedOut => c.id !in s.pending && Places(s, h) <= 1 && |c.queue| == c.puts
  }

  ghost predicate TablesOk(s: State) {
    && s.lastId == |s.calls|
    && (forall k :: k in s.pending ==> 1 <= k <= |s.calls| && s.pending[k] == k - 1)
    && (s.reader.Holding? ==> s.reader.call < |s.calls| && KeyOf(s.reader.response.id) == Some(s.reader.call + 1))
  }

  ghost predicate Inv(s: State) {
    TablesOk(s) && forall h :: 0 <= h < |s.calls| ==> CallOk(s, h)
  }

  /** A step that concerns one call leaves the others as they were. */
  lemma OthersKept(s: State, next: State, h: nat)
    requires Inv(s) && TablesOk(next) && h < |s.calls| == |next.calls|
    requires forall i :: 0 <= i < |s.calls| && i != h ==> next.calls[i] == s.calls[i] && Held(next, i) == Held(s, i)
    requires forall k :: k != s.calls[h].id ==> (k in next.pending <==> k in s.pending)
    requires CallOk(next, h)
    ensures Inv(next)
  {
    forall i | 0 <= i < |next.calls| && i != h ensures CallOk(next, i) {
      assert CallOk(s, i) && CallOk(s, h);
    }
  }

  lemma DrawKeeps(s: State)
    requires Inv(s)
    ensures Inv(Next(s, Draw))
  {
    var next := Next(s, Draw);
    forall i | 0 <= i < |next.calls| ensures CallOk(next, i) {
      if i < |s.calls| { assert CallOk(s, i); }
    }
  }

  lemma ReadKeeps(s: State, line: Line)
    requires Inv(s) && s.reader.Idle?
    ensures Inv(Next(s, Read(line)))
  {
    var next := Next(s, Read(line));
    if next.reader.Holding? {
      var h := next.reader.call;
      assert CallOk(s, h);
      OthersKept(s, next, h);
    } else {
      forall i | 0 <= i < |next.calls| ensures CallOk(next, i) { assert CallOk(s, i); }
    }
  }

  lemma CallStepKeeps(s: State, step: Step, h: nat)
    requires Inv(s) && Enabled(s, step)
    requires step in {Register(h), Send(h), FailSend(h), Take(h), Expire(h), Withdraw(h)}
    ensures Inv(Next(s, step))
  {
    assert CallOk(s, h);
    assert step.Take? ==> s.calls[h].queue[0] in s.calls[h].queue;
    OthersKept(s, Next(s, step), h);
  }

  lemma PutKeeps(s: State)
    requires Inv(s) && Enabled(s, Put)
    ensures Inv(Next(s, Put))
  {
    assert CallOk(s, s.reader.call);
    OthersKept(s, Next(s, Put), s.reader.call);
  }

  lemma StepKeeps(s: State, step: Step)
    requires Inv(s) && Enabled(s, step)
    ensures Inv(Next(s, step))
  {
    match step
    case Draw => DrawKeeps(s);
    case Read(line) => ReadKeeps(s, line);
    case Put => PutKeeps(s);
    case _ => CallStepKeeps(s, step, step.call);
  }

  lemma {:induction false} EveryInterleavingKeeps(steps: seq<Step>)
    ensures Inv(StateAfter(steps))
  {
    if steps != [] {
      EveryInterleavingKeeps(steps[..|steps| - 1]);
      var before := StateAfter(steps[..|steps| - 1]);
      if Enabled(before, steps[|steps| - 1]) { StepKeeps(before, steps[|steps| - 1]); }
    }
  }

  /** What a call has received so far: what it was answered with, or what waits in its queue. */
  ghost predicate Got(c: Call, r: Response) {
    c.phase == Answered(r) || r in c.queue
  }

  /**
   * Whatever the server sends, in whatever order: a response reaches only the call that drew its identifier, so a late
   * reply never reaches a later call.
   */
  lemma ResponsesReachTheirCall(steps: seq<Step>, h: nat, j: nat, r: Response)
    requires h < |StateAfter(steps).calls| && j < |StateAfter(steps).calls| && Got(StateAfter(steps).calls[h], r)
    ensures KeyOf(r.id) == Some(StateAfter(steps).calls[h].id)
    ensures KeyOf(r.id) == Some(StateAfter(steps).calls[j].id) ==> h == j
  {
    EveryInterleavingKeeps(steps);
    var s := StateAfter(steps);
    assert CallOk(s, h) && CallOk(s, j);
  }

  /**
   * A response that reaches a call has the same identifier, value and type, exactly when its identifier is no boolean; a
   * boolean can only be `true`, and only reach the first call.
   */
  lemma IdentifierMatchesIffNotBoolean(steps: seq<Step>, h: nat, r: Response)
    requires h < |StateAfter(steps).calls| && Got(StateAfter(steps).calls[h], r)
    ensures r.id == Number(StateAfter(steps).calls[h].id as real) <==> !r.id.Boolean?
    ensures r.id.Boolean? ==> r.id.flag && h == 0
  {
    ResponsesReachTheirCall(steps, h, h, r);
    EveryInterleavingKeeps(steps);
    assert CallOk(StateAfter(steps), h);
  }

  /** Every queue is filled at most once, and filling it never blocks the reader. */
  lemma QueuesAreFilledOnce(steps: seq<Step>)
    ensures var s := StateAfter(steps);
            && (forall h :: 0 <= h < |s.calls| ==> s.calls[h].puts <= 1 && |s.calls[h].queue| <= 1)
            && (s.reader.Holding? ==> Enabled(s, Put))
  {
    EveryInterleavingKeeps(steps);
    var s := StateAfter(steps);
    forall h | 0 <= h < |s.calls| ensures s.calls[h].puts <= 1 && |s.calls[h].queue| <= 1 { assert CallOk(s, h); }
    if s.reader.Holding? { assert CallOk(s, s.reader.call); }
  }

  predicate Finished(c: Call) {
    c.phase.Answered? || c.phase.TimedOut? || c.phase.SendFailed?
  }

  /** A finished call leaves an entry in the table exactly when its message could not be sent and no reply was taken for it. */
  lemma LeftPendingIffNeverSent(steps: seq<Step>, h: nat)
    requires h < |StateAfter(steps).calls| && Finished(StateAfter(steps).calls[h])
    ensures var s := StateAfter(steps);
            s.calls[h].id in s.pending <==> s.calls[h].phase.SendFailed? && s.calls[h].puts == 0 && !Held(s, h)
  {
    EveryInterleavingKeeps(steps);
    assert CallOk(StateAfter(steps), h);
  }

  /** The table holds open calls, and calls that could not be sent, and nothing else. */
  lemma PendingCallsAreOpen(steps: seq<Step>, k: int)
    requires k in StateAfter(steps).pending
    ensures var s := StateAfter(steps);
            && s.pending[k] < |s.calls| && s.calls[s.pending[k]].id == k && s.calls[s.pending[k]].puts == 0
            && !s.calls[s.pending[k]].phase.Drawn? && !s.calls[s.pending[k]].phase.Answered? && !s.calls[s.pending[k]].phase.TimedOut?
  {
    EveryInterleavingKeeps(steps);
    assert CallOk(StateAfter(steps), StateAfter(steps).pending[k]);
  }

  /** How a call ended is never revised. */
  lemma FinishedIsFinal(steps: seq<Step>, step: Step, h: nat)
    requires h < |StateAfter(steps).calls| && Finished(StateAfter(steps).calls[h])
    ensures var next := StateAfter(steps + [step]); h < |next.calls| && next.calls[h].phase == StateAfter(steps).calls[h].phase
  {
    assert (steps + [step])[..|steps|] == steps;
  }

  lemma After(steps: seq<Step>, step: Step) returns (next: State)
    ensures next == StateAfter(steps + [step])
    ensures next == if Enabled(StateAfter(steps), step) then Next(StateAfter(steps), step) else StateAfter(steps)
  {
    assert (steps + [step])[..|steps|] == steps;
    next := StateAfter(steps + [step]);
  }

  /** A call whose message cannot be written leaves its entry in the table. */
  lemma UnsentCallStaysPending()
    ensures StateAfter([Draw] + [Register(0)] + [FailSend(0)]) == State(1, [Call(1, SendFailed, [], 0)], map[1 := 0], Idle)
  {
    FirstCallIsRegistered();
    var s3 := After([Draw] + [Register(0)], FailSend(0));
  }

  const TRUE_REPLY := Response(Boolean(true), "ok")
  const TRUE_LINE := Message(Some(Boolean(true)), true, "ok")
  const SENT: seq<Step> := [Draw] + [Register(0)] + [Send(0)]

  lemma FirstCallIsRegistered()
    ensures StateAfter([Draw] + [Register(0)]) == State(1, [Call(1, Registered, [], 0)], map[1 := 0], Idle)
  {
    var s1 := After([], Draw);
    assert [] + [Draw] == [Draw];
    assert s1 == State(1, [Call(1, Drawn, [], 0)], map[], Idle);
    var s2 := After([Draw], Register(0));
    assert s2 == State(1, [Call(1, Registered, [], 0)], map[1 := 0], Idle);
  }

  lemma FirstCallIsSent()
    ensures StateAfter(SENT) == State(1, [Call(1, Waiting, [], 0)], map[1 := 0], Idle)
  {
    FirstCallIsRegistered();
    var s3 := After([Draw] + [Register(0)], Send(0));
  }

  lemma TrueIsRead(s: State)
    requires s == State(1, [Call(1, Waiting, [], 0)], map[1 := 0], Idle)
    ensures Next(s, Read(TRUE_LINE)) == State(1, s.calls, map[], Holding(0, TRUE_REPLY))
  {
    assert map[1 := 0] - {1} == map[];
  }

  /** A reply whose identifier is `true` answers the first call. */
  lemma TrueAnswersTheFirstCall()
    ensures StateAfter(SENT + [Read(TRUE_LINE)] + [Put] + [Take(0)]).calls == [Call(1, Answered(TRUE_REPLY), [], 1)]
  {
    FirstCallIsSent();
    TrueIsRead(StateAfter(SENT));
    var s4 := After(SENT, Read(TRUE_LINE));
    var s5 := After(SENT + [Read(TRUE_LINE)], Put);
    assert s5 == State(1, [Call(1, Waiting, [TRUE_REPLY], 1)], map[], Idle);
    var s6 := After(SENT + [Read(TRUE_LINE)] + [Put], Take(0));
    assert [TRUE_REPLY][1..] == [] && s5.calls[0].queue == [TRUE_REPLY];
    assert s6 == State(1, [Call(1, Answered(TRUE_REPLY), [], 1)], map[], Idle);
  }

  /** No queue is filled between the two states, and the reader is dead in both. */
  ghost predicate NothingFilled(s: State, t: State) {
    && s.reader.Dead? && t.reader.Dead? && |s.calls| <= |t.calls|
    && (forall h :: 0 <= h < |s.calls| ==> t.calls[h].puts == s.calls[h].puts)
    && (forall h :: |s.calls| <= h < |t.calls| ==> t.calls[h].puts == 0)
  }

  lemma DeadStepFillsNothing(s: State, t: State, step: Step)
    requires NothingFilled(s, t) && Enabled(t, step)
    ensures NothingFilled(s, Next(t, step))
  {
  }

  /** The `i`-th step is a line that the reader takes up and that raises with the table as it is then. */
  ghost predicate RaisesAt(steps: seq<Step>, i: int)
    requires 0 <= i < |steps|
  {
    var s := StateAfter(steps[..i]);
    steps[i].Read? && Raises(steps[i].line, s.pending) && s.reader.Idle?
  }

  lemma StepKills(s: State, step: Step)
    ensures (if Enabled(s, step) then Next(s, step) else s).reader.Dead?
            <==> s.reader.Dead? || (step.Read? && Raises(step.line, s.pending) && s.reader.Idle?)
  {
  }

  /** The reader is dead exactly when some line that it took up raised. */
  lemma {:induction false} ReaderDiesIffLineRaises(steps: seq<Step>)
    ensures StateAfter(steps).reader.Dead? <==> exists i :: 0 <= i < |steps| && RaisesAt(steps, i)
  {
    if steps != [] {
      var n := |steps| - 1;
      var init := steps[..n];
      ReaderDiesIffLineRaises(init);
      StepKills(StateAfter(init), steps[n]);
      forall i | 0 <= i < n ensures RaisesAt(steps, i) == RaisesAt(init, i) { assert init[..i] == steps[..i]; }
      assert StateAfter(steps).reader.Dead? <==> StateAfter(init).reader.Dead? || RaisesAt(steps, n);
    }
  }

  ghost predicate HasElement(strings: seq<string>, token: string) {
    exists i :: 0 <= i < |strings| && strings[i] == token
  }

  /** The lines that end the reader, by what they hold. */
  ghost predicate Ends(line: Line, waiting: bool) {
    || line == Undecodable || line == Scalar
    || (line.Quoted? && Surrounds(line.text, "id") && (Surrounds(line.text, "result") || Surrounds(line.text, "error")))
    || (line.Listed? && HasElement(line.strings, "id") && (HasElement(line.strings, "result") || HasElement(line.strings, "error")))
    || (line.Message? && line.settled && line.id == Some(Container) && waiting)
  }

  /** A line ends an idle reader exactly when it is one of those. */
  lemma LineEndsReaderIff(s: State, line: Line)
    requires s.reader.Idle?
    ensures Next(s, Read(line)).reader.Dead? <==> Ends(line, s.pending != map[])
  {
    if line.Quoted? {
      IncludesIff(line.text, "id");
      IncludesIff(line.text, "result");
      IncludesIff(line.text, "error");
    }
  }

  /** An identifier stands for a number when it is that number, or the boolean that Python takes for it. */
  ghost predicate StandsFor(id: JsonId, k: int) {
    id == Number(k as real) || (id == Boolean(true) && k == 1) || (id == Boolean(false) && k == 0)
  }

  ghost predicate Replies(line: Line, k: int) {
    line.Message? && line.settled && line.id.Some? && StandsFor(line.id.value, k)
  }

  /** The reader takes the queue of a pending call exactly when the line is a reply with its identifier, and no other queue. */
  lemma ReplyIsTakenIff(s: State, line: Line, k: int)
    requires s.reader.Idle? && k in s.pending
    ensures var next := Next(s, Read(line));
            && (k !in next.pending <==> Replies(line, k))
            && (Replies(line, k) ==>
                  next == s.(pending := s.pending - {k}, reader := Holding(s.pending[k], Response(line.id.value, line.payload))))
  {
  }

  /** Two harmless looking lines: the number 3, and a string in which the two names happen to occur. */
  lemma BareValuesRaise(pending: map<int, nat>)
    ensures Raises(Scalar, pending) && Raises(Quoted("invalid result"), pending)
  {
    assert StandsAt("invalid result", "id", 5) && StandsAt("invalid result", "result", 8);
  }

  const CONTAINER_LINE := Message(Some(Container), true, "ok")

  /** An identifier that is a list passes while no call is pending. */
  lemma ContainerPassesAnEmptyTable()
    ensures StateAfter([Read(CONTAINER_LINE)]) == INITIAL
  {
    var s := After([], Read(CONTAINER_LINE));
    assert [] + [Read(CONTAINER_LINE)] == [Read(CONTAINER_LINE)];
  }

  /** And ends the reader while one waits. */
  lemma ContainerEndsAWaitingReader()
    ensures StateAfter(SENT + [Read(CONTAINER_LINE)]).reader.Dead?
  {
    FirstCallIsSent();
    var s := After(SENT, Read(CONTAINER_LINE));
    assert 1 in StateAfter(SENT).pending;
  }

  /** A line that raises while the first call waits ends the reader, and the call is never answered whatever happens then. */
  lemma RaisingLineStrandsTheCall(line: Line, more: seq<Step>)
    requires Raises(line, map[1 := 0])
    ensures var s := StateAfter(SENT + [Read(line)] + more);
            && s.reader.Dead? && |s.calls| >= 1 && !s.calls[0].phase.Answered? && s.calls[0].puts == 0
  {
    FirstCallIsSent();
    var dead := After(SENT, Read(line));
    DeadReaderAnswersNothing(SENT + [Read(line)], more);
    EveryInterleavingKeeps(SENT + [Read(line)] + more);
    assert CallOk(StateAfter(SENT + [Read(line)] + more), 0);
  }

  /** Once the reader is dead no queue is filled, so no call is answered from then on but from what it holds. */
  lemma {:induction false} DeadReaderAnswersNothing(steps: seq<Step>, more: seq<Step>)
    requires StateAfter(steps).reader.Dead?
    ensures NothingFilled(StateAfter(steps), StateAfter(steps + more))
  {
    if more == [] {
      assert steps + more == steps;
    } else {
      var init, last := more[..|more| - 1], more[|more| - 1];
      DeadReaderAnswersNothing(steps, init);
      assert steps + more == steps + init + [last];
      var next := After(steps + init, last);
      if Enabled(StateAfter(steps + init), last) { DeadStepFillsNothing(StateAfter(steps), StateAfter(steps + init), last); }
    }
  }

  /** The client, whose table and counter are shared by all threads; each method is one atomic step. */
  class AppServerClient {
    var lastId: nat
    var calls: seq<Call>
    var pending: map<int, nat>
    var reader: Reader

    constructor ()
      ensures View() == INITIAL
    {
      lastId, calls, pending, reader := 0, [], map[], Idle;
    }

    function View(): State
      reads this
    {
      State(lastId, calls, pending, reader)
    }

    /** Under the lock. */
    method NextId() returns (call: nat)
      modifies this`lastId, this`calls
      ensures View() == Next(old(View()), Draw) && call == |old(calls)|
    {
      call := |calls|;
      lastId := lastId + 1;
      calls := calls + [Call(lastId, Drawn, [], 0)];
    }

    method Enter(call: nat)
      requires Enabled(View(), Register(call))
      modifies this`calls, this`pending
      ensures View() == Next(old(View()), Register(call))
    {
      calls := calls[call := calls[call].(phase := Registered)];
      pending := pending[calls[call].id := call];
    }

    /** The wait ends with a response, or with nothing. */
    method Await(call: nat) returns (response: Option<Response>)
      requires InPhase(View(), call, Waiting)
      modifies this`calls
      ensures response.Some? <==> old(calls[call].queue) != []
      ensures View() == Next(old(View()), if response.Some? then Take(call) else Expire(call))
      ensures response.Some? ==> calls[call].phase == Answered(response.value)
    {
      if calls[call].queue == [] {
        calls := calls[call := calls[call].(phase := Expired)];
        return None;
      }
      response := Some(calls[call].queue[0]);
      calls := calls[call := calls[call].(phase := Answered(response.value), queue := calls[call].queue[1..])];
    }

    method GiveUp(call: nat)
      requires Enabled(View(), Withdraw(call))
      modifies this`calls, this`pending
      ensures View() == Next(old(View()), Withdraw(call))
    {
      pending := pending - {calls[call].id};
      calls := calls[call := calls[call].(phase := TimedOut)];
    }

    /** One turn of the read loop up to taking the queue out of the table. */
    method ReadReply(line: Line)
      requires reader.Idle?
      modifies this`pending, this`reader
      ensures View() == Next(old(View()), Read(line))
    {
      if Raises(line, pending) {
        reader := Dead;
        return;
      }
      if !LooksLikeReply(line) { return; }
      var key := KeyOf(line.id.value);
      if key.Some? && key.value in pending {
        reader := Holding(pending[key.value], Response(line.id.value, line.payload));
        pending := pending - {key.value};
      }
    }

    /** The rest of the turn. */
    method FillQueue()
      requires Enabled(View(), Put)
      modifies this`calls, this`reader
      ensures View() == Next(old(View()), Put)
    {
      var h := reader.call;
      calls := calls[h := calls[h].(queue := [reader.response], puts := calls[h].puts + 1)];
      reader := Idle;
    }
  }
}
