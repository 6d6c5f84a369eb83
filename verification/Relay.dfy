/**
 The front's relay between one client socket and the daemon behind it
 (apps/daemon-rs/src/main.rs:704-830, 865-900, 969-1047). `select!` takes whichever branch is
 ready, so a connection is driven by a script of such choices, each carrying what the outside
 world answered; a choice whose branch is not enabled changes nothing.
 */
module Relay {
  import opened Sequences

  const MAX_PENDING_FRAMES: nat := 1024

  datatype Role = Viewer | Operator | Owner

  datatype Frame = Text(text: string) | Binary(bytes: seq<bv8>)

  datatype Link = Pending(queued: seq<Frame>) | Up | Absent

  datatype Config = Config(expectsUpstream: bool, nativeTerminals: bool, role: Option<Role>)

  /** What a binary frame decodes to, with the answers of the native terminals about its slot. */
  datatype Decoded = Undecodable | Terminal(writes: bool, owned: bool, handled: bool) | Other

  /** A client message: a text with its envelope's kind and the reply the native terminal handler
      would give it, a binary frame, or one of the protocol's own messages. */
  datatype Message =
    | TextMessage(text: string, kind: Option<string>, reply: Option<string>)
    | BinaryMessage(bytes: seq<bv8>, decoded: Decoded)
    | CloseMessage
    | ControlMessage
    | Gone

  /** Where dialling ends: connected to an upstream that takes `accepts` of the queued frames before
      it drops the connection (if there are that many), refused, or abandoned. */
  datatype Dial = Connected(accepts: nat) | Refused | Abandoned

  datatype Choice =
    | Dialled(dial: Dial)
    | Local(bytes: seq<bv8>, socketOk: bool)
    | FromUpstream(frame: Frame, socketOk: bool)
    | UpstreamClosed(close: Option<(nat, string)>, socketOk: bool)
    | FromClient(message: Message, socketOk: bool, upstreamOk: bool)

  datatype Sent = Data(frame: Frame) | Closing(code: nat, reason: string)

  /** The connection: its link, what the upstream received and what the client was sent. */
  datatype State = State(open: bool, link: Link, received: seq<Frame>, sent: seq<Sent>)

  function Initial(config: Config): State {
    State(true, if config.expectsUpstream then Pending([]) else Absent, [], [])
  }

  // ---------------------------------------------------------------- routing

  datatype Route = Forward(frame: Frame) | Answer(text: string) | Ignore | Hangup

  const PONG := "{\"type\":\"pong\"}"

  predicate HasTerminals(config: Config) {
    config.nativeTerminals && config.role.Some?
  }

  predicate MayWrite(config: Config) {
    config.role.Some? && !config.role.value.Viewer?
  }

  function RouteText(config: Config, text: string, kind: Option<string>, reply: Option<string>): Route {
    if kind.None? then Forward(Text(text))
    else if kind.value == "ping" && config.role.Some? then Answer(PONG)
    else if kind.value == "session" && HasTerminals(config) && reply.Some? then Answer(reply.value)
    else Forward(Text(text))
  }

  function RouteBinary(config: Config, bytes: seq<bv8>, decoded: Decoded): Route {
    match decoded
    case Undecodable => Ignore
    case Terminal(writes, owned, handled) =>
      if HasTerminals(config) && ((writes && !MayWrite(config) && owned) || handled) then Ignore else Forward(Binary(bytes))
    case Other => Forward(Binary(bytes))
  }

  function RouteOf(config: Config, message: Message): Route {
    match message
    case TextMessage(text, kind, reply) => RouteText(config, text, kind, reply)
    case BinaryMessage(bytes, decoded) => RouteBinary(config, bytes, decoded)
    case CloseMessage => Hangup
    case ControlMessage => Ignore
    case Gone => Hangup
  }

  /** Which messages are forwarded, answered and dropped: a text is answered natively exactly if it is a
      known client's ping, or a session message a native terminal replies to; a binary frame is
      dropped exactly if it cannot be decoded or a native terminal takes it or refuses a viewer's
      writing; everything else that is not the end of the connection is forwarded as it came. */
  lemma RoutesByKind(config: Config, m: Message)
    ensures m.TextMessage? ==>
              var pong := config.role.Some? && m.kind == Some("ping");
              var native := config.nativeTerminals && config.role.Some? && m.kind == Some("session") && m.reply.Some?;
              && (pong ==> RouteOf(config, m) == Answer("{\"type\":\"pong\"}"))
              && (native ==> RouteOf(config, m) == Answer(m.reply.value))
              && (!pong && !native ==> RouteOf(config, m) == Forward(Text(m.text)))
    ensures m.BinaryMessage? ==>
              var terminals := config.nativeTerminals && config.role.Some? && m.decoded.Terminal?;
              var taken := terminals && m.decoded.handled;
              var refused := terminals && m.decoded.writes && m.decoded.owned && config.role == Some(Viewer);
              RouteOf(config, m) == if m.decoded.Undecodable? || taken || refused then Ignore else Forward(Binary(m.bytes))
    ensures m.CloseMessage? || m.Gone? ==> RouteOf(config, m) == Hangup
    ensures m.ControlMessage? ==> RouteOf(config, m) == Ignore
  {
  }

  // ---------------------------------------------------------------- one step

  function Closed(s: State): State {
    s.(open := false)
  }

  function ToClient(s: State, sent: Sent, socketOk: bool): State {
    if socketOk then s.(sent := s.sent + [sent]) else Closed(s)
  }

  function Deliver(s: State, frame: Frame, upstreamOk: bool): State {
    match s.link
    case Absent => s
    case Pending(queued) =>
      if |queued| >= MAX_PENDING_FRAMES then Closed(s) else s.(link := Pending(queued + [frame]))
    case Up => if upstreamOk then s.(received := s.received + [frame]) else Closed(s)
  }

  function Flush(s: State, queued: seq<Frame>, accepts: nat): State {
    if accepts >= |queued| then s.(link := Up, received := s.received + queued)
    else Closed(s.(link := Up, received := s.received + queued[..accepts]))
  }

  function OnDialled(config: Config, s: State, dial: Dial): State {
    if !s.link.Pending? then s
    else if dial.Connected? then Flush(s, s.link.queued, dial.accepts)
    else if config.role.None? then Closed(s)
    else s.(link := Absent)
  }

  function OnMessage(config: Config, s: State, message: Message, socketOk: bool, upstreamOk: bool): State {
    match RouteOf(config, message)
    case Forward(frame) => Deliver(s, frame, upstreamOk)
    case Answer(text) => ToClient(s, Data(Text(text)), socketOk)
    case Ignore => s
    case Hangup => Closed(s)
  }

  function Step(config: Config, s: State, choice: Choice): State {
    if !s.open then s
    else
      match choice
      case Dialled(dial) => OnDialled(config, s, dial)
      case Local(bytes, socketOk) => if HasTerminals(config) then ToClient(s, Data(Binary(bytes)), socketOk) else s
      case FromUpstream(frame, socketOk) => if s.link.Up? then ToClient(s, Data(frame), socketOk) else s
      case UpstreamClosed(close, socketOk) =>
        if !s.link.Up? then s
        else if close.None? then Closed(s)
        else Closed(ToClient(s, Closing(close.value.0, close.value.1), socketOk))
      case FromClient(message, socketOk, upstreamOk) => OnMessage(config, s, message, socketOk, upstreamOk)
  }

  function Play(config: Config, s: State, script: seq<Choice>): State
    decreases |script|
  {
    if script == [] then s else Play(config, Step(config, s, script[0]), script[1..])
  }

  // ---------------------------------------------------------------- what a script asks for

  /** The frames the front chose to forward, in the order the client sent them: a matter of the
      client's messages alone, whatever the link does. */
  function Chosen(config: Config, script: seq<Choice>): seq<Frame> {
    if script == [] then []
    else Chosen(config, script[..|script| - 1]) + ChosenOf(config, script[|script| - 1])
  }

  function ChosenOf(config: Config, choice: Choice): seq<Frame> {
    if choice.FromClient? && RouteOf(config, choice.message).Forward? then [RouteOf(config, choice.message).frame] else []
  }

  /** How dialling ended, if it did. */
  function FirstDial(script: seq<Choice>): Option<Dial> {
    if script == [] then None
    else if FirstDial(script[..|script| - 1]).Some? then FirstDial(script[..|script| - 1])
    else if script[|script| - 1].Dialled? then Some(script[|script| - 1].dial)
    else None
  }

  /** What the client is to be sent: every frame of the upstream once dialling has connected, every
      native terminal frame and every native answer, in the order they arise. */
  function Due(config: Config, script: seq<Choice>): seq<Sent> {
    if script == [] then []
    else
      var before, last := script[..|script| - 1], script[|script| - 1];
      Due(config, before) + DueOf(config, IsUp(config, FirstDial(before)), last)
  }

  function DueOf(config: Config, up: bool, choice: Choice): seq<Sent> {
    match choice
    case Dialled(_) => []
    case Local(bytes, _) => if config.nativeTerminals && config.role.Some? then [Data(Binary(bytes))] else []
    case FromUpstream(frame, _) => if up then [Data(frame)] else []
    case UpstreamClosed(close, _) => if up && close.Some? then [Closing(close.value.0, close.value.1)] else []
    case FromClient(message, _, _) =>
      if RouteOf(config, message).Answer? then [Data(Text(RouteOf(config, message).text))] else []
  }

  predicate IsUp(config: Config, dial: Option<Dial>) {
    config.expectsUpstream && dial.Some? && dial.value.Connected?
  }

  /** Why a connection that has lived through `script` ends with `choice`. */
  ghost predicate Cut(config: Config, script: seq<Choice>, choice: Choice) {
    var pending := config.expectsUpstream && FirstDial(script).None?;
    var up := IsUp(config, FirstDial(script));
    match choice
    case Dialled(dial) =>
      pending && if dial.Connected? then dial.accepts < |Chosen(config, script)| else config.role.None?
    case Local(_, socketOk) => config.nativeTerminals && config.role.Some? && !socketOk
    case FromUpstream(_, socketOk) => up && !socketOk
    case UpstreamClosed(_, _) => up
    case FromClient(message, socketOk, upstreamOk) =>
      var route := RouteOf(config, message);
      || route.Hangup?
      || (route.Answer? && !socketOk)
      || (route.Forward? && up && !upstreamOk)
      || (route.Forward? && pending && |Chosen(config, script)| >= 1024)
  }

  ghost predicate Survives(config: Config, script: seq<Choice>) {
    script == [] ||
    (var before, last := script[..|script| - 1], script[|script| - 1];
     Survives(config, before) && !Cut(config, before, last))
  }

  ghost predicate LinkMatches(config: Config, s: State, script: seq<Choice>) {
    match s.link
    case Pending(queued) =>
      config.expectsUpstream && FirstDial(script).None? && queued == Chosen(config, script) && s.received == []
    case Up => IsUp(config, FirstDial(script)) && s.received == Chosen(config, script)
    case Absent =>
      && s.received == []
      && (config.expectsUpstream ==>
            FirstDial(script).Some? && !FirstDial(script).value.Connected? && config.role.Some?)
  }

  ghost predicate Inv(config: Config, s: State, script: seq<Choice>) {
    && s.received <= Chosen(config, script)
    && s.sent <= Due(config, script)
    && (s.link.Pending? ==> |s.link.queued| <= 1024)
    && (s.open <==> Survives(config, script))
    && (s.open ==> LinkMatches(config, s, script) && s.sent == Due(config, script))
  }

  /** What one more choice adds to what the script asks for. */
  lemma ScriptSnoc(config: Config, script: seq<Choice>, choice: Choice)
    ensures Chosen(config, script + [choice]) == Chosen(config, script) + ChosenOf(config, choice)
    ensures Due(config, script + [choice]) == Due(config, script) + DueOf(config, IsUp(config, FirstDial(script)), choice)
    ensures Survives(config, script + [choice]) <==> Survives(config, script) && !Cut(config, script, choice)
    ensures FirstDial(script + [choice]) ==
            if FirstDial(script).None? && choice.Dialled? then Some(choice.dial) else FirstDial(script)
  {
    assert (script + [choice])[..|script|] == script;
    hide ChosenOf, DueOf, Cut, IsUp;
  }

  lemma ForwardKeeps(config: Config, s: State, script: seq<Choice>, choice: Choice)
    requires Inv(config, s, script) && s.open && choice.FromClient? && RouteOf(config, choice.message).Forward?
    ensures Inv(config, Step(config, s, choice), script + [choice])
  {
    ScriptSnoc(config, script, choice);
    hide RouteOf, Chosen, Due, Survives, FirstDial;
  }

  lemma AnswerKeeps(config: Config, s: State, script: seq<Choice>, choice: Choice)
    requires Inv(config, s, script) && s.open && choice.FromClient? && RouteOf(config, choice.message).Answer?
    ensures Inv(config, Step(config, s, choice), script + [choice])
  {
    ScriptSnoc(config, script, choice);
    hide RouteOf, Chosen, Due, Survives, FirstDial;
    assert ChosenOf(config, choice) == [];
  }

  lemma SilentKeeps(config: Config, s: State, script: seq<Choice>, choice: Choice)
    requires Inv(config, s, script) && s.open && choice.FromClient?
    requires RouteOf(config, choice.message).Ignore? || RouteOf(config, choice.message).Hangup?
    ensures Inv(config, Step(config, s, choice), script + [choice])
  {
    ScriptSnoc(config, script, choice);
    hide RouteOf, Chosen, Due, Survives, FirstDial;
    assert ChosenOf(config, choice) == [];
  }

  lemma DialKeeps(config: Config, s: State, script: seq<Choice>, choice: Choice)
    requires Inv(config, s, script) && s.open && choice.Dialled?
    ensures Inv(config, Step(config, s, choice), script + [choice])
  {
    ScriptSnoc(config, script, choice);
    hide RouteOf, Chosen, Due, Survives, FirstDial;
  }

  lemma UpstreamKeeps(config: Config, s: State, script: seq<Choice>, choice: Choice)
    requires Inv(config, s, script) && s.open && !choice.Dialled? && !choice.FromClient?
    ensures Inv(config, Step(config, s, choice), script + [choice])
  {
    ScriptSnoc(config, script, choice);
    hide RouteOf, Chosen, Due, Survives, FirstDial;
    assert ChosenOf(config, choice) == [];
  }

  lemma ClosedKeeps(config: Config, s: State, script: seq<Choice>, choice: Choice)
    requires Inv(config, s, script) && !s.open
    ensures Inv(config, Step(config, s, choice), script + [choice])
  {
    ScriptSnoc(config, script, choice);
    hide RouteOf, Chosen, Due, Survives, FirstDial, ChosenOf, DueOf, Cut;
  }

  lemma StepKeeps(config: Config, s: State, script: seq<Choice>, choice: Choice)
    requires Inv(config, s, script)
    ensures Inv(config, Step(config, s, choice), script + [choice])
  {
    hide RouteOf, Step, Inv;
    if !s.open {
      ClosedKeeps(config, s, script, choice);
    } else if choice.FromClient? {
      match RouteOf(config, choice.message) {
        case Forward(_) => ForwardKeeps(config, s, script, choice);
        case Answer(_) => AnswerKeeps(config, s, script, choice);
        case _ => SilentKeeps(config, s, script, choice);
      }
    } else if choice.Dialled? {
      DialKeeps(config, s, script, choice);
    } else {
      UpstreamKeeps(config, s, script, choice);
    }
  }

  lemma {:induction false} PlaySnoc(config: Config, s: State, script: seq<Choice>, choice: Choice)
    ensures Play(config, s, script + [choice]) == Step(config, Play(config, s, script), choice)
    decreases |script|
  {
    hide Step;
    if script == [] {
      assert Play(config, s, [choice]) == Play(config, Step(config, s, choice), []);
    } else {
      assert (script + [choice])[1..] == script[1..] + [choice];
      PlaySnoc(config, Step(config, s, script[0]), script[1..], choice);
    }
  }

  /** For every interleaving of client frames, upstream frames and the dial's outcome: the upstream
      has received a prefix of the frames the front chose to forward, and all of them while the
      link is up and the connection open; while the link is pending all of them are queued, in
      order and at most 1024; so a frame is discarded only once the link is absent or the
      connection closed. It closes exactly at the first `Cut`. The client, likewise, has been sent
      a prefix of what is due to it, and all of it while open. */
  lemma {:induction false} RelayKeepsOrder(config: Config, script: seq<Choice>)
    ensures Inv(config, Play(config, Initial(config), script), script)
  {
    if script == [] {
    } else {
      var before, last := script[..|script| - 1], script[|script| - 1];
      assert script == before + [last];
      RelayKeepsOrder(config, before);
      PlaySnoc(config, Initial(config), before, last);
      StepKeeps(config, Play(config, Initial(config), before), before, last);
    }
  }

  // ---------------------------------------------------------------- the loop

  /** `deliver`: what it does to the link and the upstream is `Deliver`. */
  method DeliverFrame(link: Link, received: seq<Frame>, frame: Frame, upstreamOk: bool)
    returns (newLink: Link, newReceived: seq<Frame>, keep: bool)
    ensures forall sent :: State(keep, newLink, newReceived, sent) == Deliver(State(true, link, received, sent), frame, upstreamOk)
  {
    newLink, newReceived, keep := link, received, true;
    match link {
      case Absent =>
      case Pending(queued) =>
        if |queued| >= MAX_PENDING_FRAMES {
          keep := false;
          return;
        }
        newLink := Pending(queued + [frame]);
      case Up =>
        if upstreamOk {
          newReceived := received + [frame];
        } else {
          keep := false;
        }
    }
  }

  /** The flush loop: frame by frame, until the upstream drops the connection. */
  method FlushQueue(queued: seq<Frame>, received: seq<Frame>, accepts: nat)
    returns (link: Link, newReceived: seq<Frame>, ok: bool)
    ensures forall s: State {:trigger Flush(s, queued, accepts)} :: s.open && s.received == received ==>
              Flush(s, queued, accepts) == s.(open := ok, link := link, received := newReceived)
  {
    link, newReceived, ok := Up, received, true;
    var i := 0;
    while i < |queued|
      invariant 0 <= i <= |queued| && i <= accepts && link == Up && ok
      invariant newReceived == received + queued[..i]
    {
      link, newReceived, ok := DeliverFrame(link, newReceived, queued[i], i < accepts);
      var step := Deliver(State(true, Up, received + queued[..i], []), queued[i], i < accepts);
      assert State(ok, link, newReceived, []) == step;
      if !ok {
        return;
      }
      i := i + 1;
    }
  }

  /** `handle_socket`, driven by the script until it breaks out of its loop or the script ends: what
      it leaves is the run of `Step`, so the theorem above holds of it. */
  method HandleSocket(config: Config, script: seq<Choice>)
    returns (link: Link, received: seq<Frame>, sent: seq<Sent>, open: bool)
    ensures State(open, link, received, sent) == Play(config, Initial(config), script)
  {
    hide RouteOf, Deliver, Flush, Play, HasTerminals;
    link := if config.expectsUpstream then Pending([]) else Absent;
    received, sent, open := [], [], true;
    ghost var s := Initial(config);
    assert script[0..] == script;
    var i := 0;
    while i < |script|
      invariant 0 <= i <= |script| && open
      invariant s == State(open, link, received, sent)
      invariant Play(config, s, script[i..]) == Play(config, Initial(config), script)
    {
      var choice := script[i];
      s := Advance(config, s, script, i);
      i := i + 1;
      match choice {
        case Dialled(dial) =>
          if link.Pending? {
            if dial.Connected? {
              link, received, open := FlushQueue(link.queued, received, dial.accepts);
            } else if config.role.None? {
              open := false;
            } else {
              link := Absent;
            }
          }
        case Local(bytes, socketOk) =>
          if HasTerminals(config) {
            open, sent := SendToClient(sent, Data(Binary(bytes)), socketOk);
          }
        case FromUpstream(frame, socketOk) =>
          if link.Up? {
            open, sent := SendToClient(sent, Data(frame), socketOk);
          }
        case UpstreamClosed(close, socketOk) =>
          if link.Up? {
            if close.Some? {
              open, sent := SendToClient(sent, Closing(close.value.0, close.value.1), socketOk);
            }
            open := false;
          }
        case FromClient(message, socketOk, upstreamOk) =>
          match RouteOf(config, message) {
            case Forward(frame) =>
              link, received, open := DeliverFrame(link, received, frame, upstreamOk);
            case Answer(text) =>
              open, sent := SendToClient(sent, Data(Text(text)), socketOk);
            case Ignore =>
            case Hangup =>
              open := false;
          }
      }
      if !open {
        Finished(config, s, script[i..]);
        return;
      }
    }
    Finished(config, s, script[i..]);
  }

  method SendToClient(sent: seq<Sent>, message: Sent, socketOk: bool) returns (open: bool, newSent: seq<Sent>)
    ensures open == socketOk && newSent == if socketOk then sent + [message] else sent
  {
    open, newSent := socketOk, sent;
    if socketOk {
      newSent := sent + [message];
    }
  }

  lemma Advance(config: Config, s: State, script: seq<Choice>, i: nat) returns (next: State)
    requires i < |script|
    ensures next == Step(config, s, script[i])
    ensures Play(config, next, script[i + 1..]) == Play(config, s, script[i..])
  {
    next := Step(config, s, script[i]);
    assert script[i..][1..] == script[i + 1..];
  }

  lemma {:induction false} Finished(config: Config, s: State, script: seq<Choice>)
    requires !s.open || script == []
    ensures Play(config, s, script) == s
    decreases |script|
  {
    if script == [] {
    } else {
      Finished(config, Step(config, s, script[0]), script[1..]);
    }
  }
}
