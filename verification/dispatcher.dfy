/** The command loop of `main`, as a pure transition function over the
    whitespace-separated tokens the user types.

    Two library calls are injected. `parse` stands for `scanf("%lf")` on one
    token (`None` when the token is not a number), and `rand` gives the value
    of the k-th `rand()` call of the session. */
module Dispatcher {
  import opened State
  import opened Simulation

  datatype Option<T> = None | Some(value: T)

  /** A particle type as `changeEnergy` reads it: a token that fit `char[50]`. */
  type TypeName = s: string | FitsBuffer(s) witness ""

  /** A command that keeps the loop running, with the arguments `changeEnergy` reads. */
  datatype Command =
    | ChangeEnergy(energy: real, particleType: TypeName)
    | Simulate
    | Status
    | Help
    | Unknown(word: string)

  /** What the program prints in answer to one command. */
  datatype Reply =
    | Exiting
    | Changed
    | Simulated
    | Report(view: StatusView)
    | CommandList
    | UnknownCommand

  /** Why a session ended: `exit`, the input ran out, or the source's behaviour
      became undefined (a token overflowing its 50-byte buffer, or a number
      `scanf` could not read). */
  datatype Halt = Exited | InputExhausted | Undefined

  /** The result of reading one command: a command and the tokens after it, or
      the end of the loop. */
  datatype Read = Parsed(cmd: Command, rest: seq<string>) | Stop(halt: Halt)

  /** The commands a session reads before it ends, and why it ends. */
  datatype Script = Script(cmds: seq<Command>, halt: Halt)

  /** What executing commands does: the final record, one reply per command, and
      the index of the next unused draw. */
  datatype Effect = Effect(state: Accelerator, replies: seq<Reply>, drawsUsed: nat)

  /** A whole session: the final record, why it ended, everything it printed, and
      the index of the next unused draw. */
  datatype Session = Session(state: Accelerator, halt: Halt, replies: seq<Reply>, drawsUsed: nat)

  /** The command words the dispatcher recognises; matching is exact and case-sensitive. */
  const Keywords: set<string> := {"exit", "changeEnergy", "simulate", "status", "help"}

  /** The word that selects a command. */
  function Word(cmd: Command): string {
    match cmd
    case ChangeEnergy(_, _) => "changeEnergy"
    case Simulate => "simulate"
    case Status => "status"
    case Help => "help"
    case Unknown(w) => w
  }

  /** Tokens a command reads after its word. */
  function ArgumentCount(cmd: Command): nat {
    if cmd.ChangeEnergy? then 2 else 0
  }

  /** Reads one command: a word, then for `changeEnergy` a number and a type. */
  function Next(tokens: seq<string>, parse: string -> Option<real>): (r: Read)
    ensures r.Parsed? ==> |r.rest| < |tokens|
  {
    if |tokens| == 0 then Stop(InputExhausted)
    else
      var w := tokens[0];
      if !FitsBuffer(w) then Stop(Undefined)
      else if w == "exit" then Stop(Exited)
      else if w == "changeEnergy" then
        if |tokens| < 2 then Stop(InputExhausted)
        else match parse(tokens[1])
          case None => Stop(Undefined)
          case Some(e) =>
            if |tokens| < 3 then Stop(InputExhausted)
            else if !FitsBuffer(tokens[2]) then Stop(Undefined)
            else Parsed(ChangeEnergy(e, tokens[2]), tokens[3..])
      else if w == "simulate" then Parsed(Simulate, tokens[1..])
      else if w == "status" then Parsed(Status, tokens[1..])
      else if w == "help" then Parsed(Help, tokens[1..])
      else Parsed(Unknown(w), tokens[1..])
  }

  /** What reading one command means: the command's word is the token read;
      `changeEnergy` takes the number `parse` reads from the next token and the
      token after that as its type, and every other command takes no argument;
      reading resumes right after the tokens taken; an unknown command is exactly
      a word that fits the buffer and is not a keyword; `exit` ends the loop
      exactly when it is the token read. */
  lemma {:induction false} NextReadsOneCommand(tokens: seq<string>, parse: string -> Option<real>)
    ensures var r := Next(tokens, parse);
            r.Parsed? ==> 0 < |tokens| && Word(r.cmd) == tokens[0] && FitsBuffer(tokens[0])
                          && |tokens| >= ArgumentCount(r.cmd) + 1
                          && r.rest == tokens[ArgumentCount(r.cmd) + 1..]
    ensures var r := Next(tokens, parse);
            r.Parsed? && r.cmd.ChangeEnergy? ==>
              parse(tokens[1]) == Some(r.cmd.energy) && r.cmd.particleType == tokens[2]
    ensures var r := Next(tokens, parse);
            0 < |tokens| && FitsBuffer(tokens[0]) ==>
              (r.Parsed? && r.cmd.Unknown? <==> tokens[0] !in Keywords)
    ensures Next(tokens, parse) == Stop(Exited) <==> 0 < |tokens| && tokens[0] == "exit"
  {
  }

  /** The values of the `rand()` calls numbered `from` up to, not including, `to`. */
  function Draws(rand: nat -> nat, from: nat, to: nat): (d: seq<nat>)
    requires from <= to
    ensures |d| == to - from
    decreases (to as int) - (from as int)
  {
    if from == to then [] else [rand(from)] + Draws(rand, from + 1, to)
  }

  /** The draws the next step receives when `used` draws have gone before. */
  function Window(rand: nat -> nat, used: nat): (d: seq<nat>)
    ensures |d| == DrawsPerStep
  {
    Draws(rand, used, used + DrawsPerStep)
  }

  /** Draw `k` of a run of successive draws is call `from + k` of `rand()`. */
  lemma {:induction false} DrawsAreSuccessive(rand: nat -> nat, from: nat, to: nat, k: nat)
    requires from + k < to
    ensures Draws(rand, from, to)[k] == rand(from + k)
    decreases (to as int) - (from as int)
  {
    if k > 0 {
      DrawsAreSuccessive(rand, from + 1, to, k - 1);
    }
  }

  /** A step's draws are the next 64 successive `rand()` values. */
  lemma {:induction false} WindowIsNextDraws(rand: nat -> nat, used: nat, k: nat)
    requires k < DrawsPerStep
    ensures Window(rand, used)[k] == rand(used + k)
  {
    DrawsAreSuccessive(rand, used, used + DrawsPerStep, k);
  }

  /** Draws a command consumes. */
  function DrawsOf(cmd: Command): nat {
    if cmd.Simulate? then DrawsPerStep else 0
  }

  /** `status`, `help` and unrecognised words only print. */
  predicate ReadOnly(cmd: Command) {
    cmd.Status? || cmd.Help? || cmd.Unknown?
  }

  /** The effect of one command on the accelerator. */
  function Apply(a: Accelerator, cmd: Command, draws: seq<nat>): (r: Accelerator)
    requires Valid(a) && |draws| >= DrawsPerStep
    ensures Valid(r)
    ensures ReadOnly(cmd) ==> r == a
    ensures cmd.Simulate? ==> r == Step(a, draws)
    ensures !cmd.ChangeEnergy? ==> r.particleEnergy == a.particleEnergy && r.particleType == a.particleType
    ensures !cmd.Simulate? ==> r.components == a.components
  {
    match cmd
    case ChangeEnergy(e, t) => Change(a, e, t)
    case Simulate => Step(a, draws)
    case _ => a
  }

  /** What the program prints in answer to a command. */
  function Answer(a: Accelerator, cmd: Command): (r: Reply)
    requires Valid(a)
    ensures r == Changed <==> cmd.ChangeEnergy?
    ensures r == Simulated <==> cmd.Simulate?
    ensures r != Exiting
  {
    match cmd
    case ChangeEnergy(_, _) => Changed
    case Simulate => Simulated
    case Status => Report(View(a))
    case Help => CommandList
    case Unknown(_) => UnknownCommand
  }

  /** Number of `simulate` commands a list of replies acknowledges. */
  function CountSimulated(replies: seq<Reply>): nat {
    if |replies| == 0 then 0
    else (if replies[0] == Simulated then 1 else 0) + CountSimulated(replies[1..])
  }

  lemma {:induction false} CountSimulatedPrepend(reply: Reply, replies: seq<Reply>)
    ensures CountSimulated([reply] + replies) == (if reply == Simulated then 1 else 0) + CountSimulated(replies)
  {
    assert ([reply] + replies)[1..] == replies;
  }

  lemma {:induction false} CountSimulatedAppend(replies: seq<Reply>, reply: Reply)
    ensures CountSimulated(replies + [reply]) == CountSimulated(replies) + (if reply == Simulated then 1 else 0)
    decreases |replies|
  {
    if |replies| > 0 {
      assert (replies + [reply])[1..] == replies[1..] + [reply];
      CountSimulatedAppend(replies[1..], reply);
    }
  }

  /** The loop of `main` from record `a`, with `used` draws already consumed. */
  function Run(a: Accelerator, tokens: seq<string>, parse: string -> Option<real>, rand: nat -> nat, used: nat)
    : (s: Session)
    requires Valid(a)
    ensures Valid(s.state)
    decreases |tokens|
  {
    match Next(tokens, parse)
    case Stop(h) => Session(a, h, if h == Exited then [Exiting] else [], used)
    case Parsed(cmd, rest) =>
      var s := Run(Apply(a, cmd, Window(rand, used)), rest, parse, rand, used + DrawsOf(cmd));
      s.(replies := [Answer(a, cmd)] + s.replies)
  }

  /** One turn of the loop: the command's reply, then the rest of the session from
      the record and draw position the command leaves. */
  lemma {:induction false} RunUnfold(a: Accelerator, tokens: seq<string>, parse: string -> Option<real>,
                                     rand: nat -> nat, used: nat)
    requires Valid(a) && Next(tokens, parse).Parsed?
    ensures var n := Next(tokens, parse);
            var s := Run(Apply(a, n.cmd, Window(rand, used)), n.rest, parse, rand, used + DrawsOf(n.cmd));
            Run(a, tokens, parse, rand, used) == s.(replies := [Answer(a, n.cmd)] + s.replies)
  {
  }

  /** The commands of a session, read up to `exit` or until reading stops. */
  function ReadScript(tokens: seq<string>, parse: string -> Option<real>): (p: Script)
    decreases |tokens|
  {
    match Next(tokens, parse)
    case Stop(h) => Script([], h)
    case Parsed(cmd, rest) =>
      var p := ReadScript(rest, parse);
      Script([cmd] + p.cmds, p.halt)
  }

  /** Executes commands in order from record `a`, with `used` draws already consumed. */
  function Execute(a: Accelerator, cmds: seq<Command>, rand: nat -> nat, used: nat): (e: Effect)
    requires Valid(a)
    ensures Valid(e.state)
    ensures |e.replies| == |cmds|
    decreases |cmds|
  {
    if |cmds| == 0 then Effect(a, [], used)
    else
      var r := Execute(Apply(a, cmds[0], Window(rand, used)), cmds[1..], rand, used + DrawsOf(cmds[0]));
      Effect(r.state, [Answer(a, cmds[0])] + r.replies, r.drawsUsed)
  }

  /** Executing past the first command. */
  lemma {:induction false} ExecuteUnfold(a: Accelerator, cmds: seq<Command>, rand: nat -> nat, used: nat)
    requires Valid(a) && |cmds| > 0
    ensures var t := Execute(Apply(a, cmds[0], Window(rand, used)), cmds[1..], rand, used + DrawsOf(cmds[0]));
            Execute(a, cmds, rand, used) == Effect(t.state, [Answer(a, cmds[0])] + t.replies, t.drawsUsed)
  {
  }

  /** The session that reading the whole script first and then executing it gives. */
  function ScriptSession(a: Accelerator, p: Script, rand: nat -> nat, used: nat): (s: Session)
    requires Valid(a)
  {
    var e := Execute(a, p.cmds, rand, used);
    var tail := if p.halt == Exited then [Exiting] else [];
    Session(e.state, p.halt, e.replies + tail, e.drawsUsed)
  }

  /** Reading past the first command. */
  lemma {:induction false} ReadScriptUnfold(tokens: seq<string>, parse: string -> Option<real>)
    requires Next(tokens, parse).Parsed?
    ensures var n := Next(tokens, parse);
            var p := ReadScript(n.rest, parse);
            ReadScript(tokens, parse) == Script([n.cmd] + p.cmds, p.halt)
  {
  }

  /** Executing a script whose first command is `cmd`. */
  lemma {:induction false} ScriptSessionCons(a: Accelerator, cmd: Command, p: Script, rand: nat -> nat, used: nat)
    requires Valid(a)
    ensures var q := ScriptSession(Apply(a, cmd, Window(rand, used)), p, rand, used + DrawsOf(cmd));
            ScriptSession(a, Script([cmd] + p.cmds, p.halt), rand, used) == q.(replies := [Answer(a, cmd)] + q.replies)
  {
    var cmds := [cmd] + p.cmds;
    assert cmds[0] == cmd && cmds[1..] == p.cmds;
    ExecuteUnfold(a, cmds, rand, used);
    var e := Execute(Apply(a, cmd, Window(rand, used)), p.cmds, rand, used + DrawsOf(cmd));
    var tail := if p.halt == Exited then [Exiting] else [];
    assert ([Answer(a, cmd)] + e.replies) + tail == [Answer(a, cmd)] + (e.replies + tail);
  }

  /** Reading then executing also peels off one command at a time. */
  lemma {:induction false} ScriptSessionUnfold(a: Accelerator, tokens: seq<string>, parse: string -> Option<real>,
                                               rand: nat -> nat, used: nat)
    requires Valid(a) && Next(tokens, parse).Parsed?
    ensures var n := Next(tokens, parse);
            var q := ScriptSession(Apply(a, n.cmd, Window(rand, used)), ReadScript(n.rest, parse), rand, used + DrawsOf(n.cmd));
            ScriptSession(a, ReadScript(tokens, parse), rand, used) == q.(replies := [Answer(a, n.cmd)] + q.replies)
  {
    var n := Next(tokens, parse);
    ReadScriptUnfold(tokens, parse);
    ScriptSessionCons(a, n.cmd, ReadScript(n.rest, parse), rand, used);
  }

  /** When reading stops, both sides stop without executing anything. */
  lemma {:induction false} RunStopped(a: Accelerator, tokens: seq<string>, parse: string -> Option<real>,
                                      rand: nat -> nat, used: nat)
    requires Valid(a) && Next(tokens, parse).Stop?
    ensures Run(a, tokens, parse, rand, used) == ScriptSession(a, ReadScript(tokens, parse), rand, used)
  {
    var h := Next(tokens, parse).halt;
    var tail := if h == Exited then [Exiting] else [];
    assert ReadScript(tokens, parse) == Script([], h);
    assert Execute(a, [], rand, used) == Effect(a, [], used);
    assert [] + tail == tail;
  }

  /** When a command is read, agreement on the rest of the input gives agreement
      on the whole. */
  lemma {:induction false} RunParsed(a: Accelerator, tokens: seq<string>, parse: string -> Option<real>,
                                     rand: nat -> nat, used: nat)
    requires Valid(a) && Next(tokens, parse).Parsed?
    requires var n := Next(tokens, parse);
             var b := Apply(a, n.cmd, Window(rand, used));
             var u := used + DrawsOf(n.cmd);
             Run(b, n.rest, parse, rand, u) == ScriptSession(b, ReadScript(n.rest, parse), rand, u)
    ensures Run(a, tokens, parse, rand, used) == ScriptSession(a, ReadScript(tokens, parse), rand, used)
  {
    RunUnfold(a, tokens, parse, rand, used);
    ScriptSessionUnfold(a, tokens, parse, rand, used);
  }

  /** The interleaved loop and "read everything, then execute" agree, because
      reading never depends on the record. */
  lemma {:induction false} RunReadsThenExecutes(a: Accelerator, tokens: seq<string>, parse: string -> Option<real>,
                                                rand: nat -> nat, used: nat)
    requires Valid(a)
    ensures Run(a, tokens, parse, rand, used) == ScriptSession(a, ReadScript(tokens, parse), rand, used)
    decreases |tokens|
  {
    var n := Next(tokens, parse);
    if n.Parsed? {
      RunReadsThenExecutes(Apply(a, n.cmd, Window(rand, used)), n.rest, parse, rand, used + DrawsOf(n.cmd));
      RunParsed(a, tokens, parse, rand, used);
    } else {
      RunStopped(a, tokens, parse, rand, used);
    }
  }

  /** Executing commands never prints the exit message: only `exit` does, and
      it is not a command that keeps the loop running. */
  lemma {:induction false} ExecuteNeverExits(a: Accelerator, cmds: seq<Command>, rand: nat -> nat, used: nat)
    requires Valid(a)
    ensures Exiting !in Execute(a, cmds, rand, used).replies
    decreases |cmds|
  {
    if |cmds| > 0 {
      var b := Apply(a, cmds[0], Window(rand, used));
      var u := used + DrawsOf(cmds[0]);
      ExecuteNeverExits(b, cmds[1..], rand, u);
      ExecuteUnfold(a, cmds, rand, used);
    }
  }

  /** Executing consumes 64 draws for every `simulate` and no others. */
  lemma {:induction false} ExecuteCountsDraws(a: Accelerator, cmds: seq<Command>, rand: nat -> nat, used: nat)
    requires Valid(a)
    ensures var e := Execute(a, cmds, rand, used);
            e.drawsUsed == used + DrawsPerStep * CountSimulated(e.replies)
    decreases |cmds|
  {
    if |cmds| > 0 {
      var b := Apply(a, cmds[0], Window(rand, used));
      var u := used + DrawsOf(cmds[0]);
      ExecuteCountsDraws(b, cmds[1..], rand, u);
      ExecuteUnfold(a, cmds, rand, used);
      CountSimulatedPrepend(Answer(a, cmds[0]), Execute(b, cmds[1..], rand, u).replies);
    }
  }

  /** Commands none of which is `changeEnergy` keep the particle settings. */
  lemma {:induction false} ExecuteKeepsParticle(a: Accelerator, cmds: seq<Command>, rand: nat -> nat, used: nat)
    requires Valid(a)
    ensures var e := Execute(a, cmds, rand, used);
            Changed !in e.replies ==>
              e.state.particleEnergy == a.particleEnergy && e.state.particleType == a.particleType
    decreases |cmds|
  {
    if |cmds| > 0 {
      var b := Apply(a, cmds[0], Window(rand, used));
      var u := used + DrawsOf(cmds[0]);
      ExecuteKeepsParticle(b, cmds[1..], rand, u);
      ExecuteUnfold(a, cmds, rand, used);
      var t := Execute(b, cmds[1..], rand, u);
      assert Changed !in [Answer(a, cmds[0])] + t.replies ==> Changed !in t.replies;
    }
  }

  /** Commands none of which is `simulate` keep every component. */
  lemma {:induction false} ExecuteKeepsComponents(a: Accelerator, cmds: seq<Command>, rand: nat -> nat, used: nat)
    requires Valid(a)
    ensures var e := Execute(a, cmds, rand, used);
            Simulated !in e.replies ==> e.state.components == a.components
    decreases |cmds|
  {
    if |cmds| > 0 {
      var b := Apply(a, cmds[0], Window(rand, used));
      var u := used + DrawsOf(cmds[0]);
      ExecuteKeepsComponents(b, cmds[1..], rand, u);
      ExecuteUnfold(a, cmds, rand, used);
      var t := Execute(b, cmds[1..], rand, u);
      assert Simulated !in [Answer(a, cmds[0])] + t.replies ==> Simulated !in t.replies;
    }
  }

  /** No command renames a component. */
  lemma {:induction false} ExecuteKeepsNames(a: Accelerator, cmds: seq<Command>, rand: nat -> nat, used: nat, i: nat)
    requires Valid(a) && i < ComponentCount
    ensures Execute(a, cmds, rand, used).state.components[i].name == a.components[i].name
    decreases |cmds|
  {
    if |cmds| > 0 {
      var w := Window(rand, used);
      var b := Apply(a, cmds[0], w);
      ExecuteKeepsNames(b, cmds[1..], rand, used + DrawsOf(cmds[0]), i);
      ExecuteUnfold(a, cmds, rand, used);
      if cmds[0].Simulate? {
        StepKeepsNames(a, w, i);
      }
    }
  }

  /** Field `j` of component `i` moves by at least `MinOffset(j)` and at most
      `MaxOffset(j)` hundredths per executed `simulate`. */
  lemma {:induction false} ExecuteDrift(a: Accelerator, cmds: seq<Command>, rand: nat -> nat, used: nat, i: nat, j: nat)
    requires Valid(a) && i < ComponentCount && j < FieldCount
    ensures var e := Execute(a, cmds, rand, used);
            var k := CountSimulated(e.replies);
            var f := Field(e.state.components[i], j);
            && Field(a.components[i], j) + Hundredths(MinOffset(j) * k) <= f
            && f <= Field(a.components[i], j) + Hundredths(MaxOffset(j) * k)
    decreases |cmds|
  {
    if |cmds| > 0 {
      var w := Window(rand, used);
      var b := Apply(a, cmds[0], w);
      var u := used + DrawsOf(cmds[0]);
      ExecuteDrift(b, cmds[1..], rand, u, i, j);
      ExecuteUnfold(a, cmds, rand, used);
      var t := Execute(b, cmds[1..], rand, u);
      CountSimulatedPrepend(Answer(a, cmds[0]), t.replies);
      if cmds[0].Simulate? {
        StepMovesEachFieldByItsDraw(a, w, i, j);
        AccumulateOffset(Field(a.components[i], j), Field(b.components[i], j), Field(t.state.components[i], j),
                         Offset(j, w[DrawsPerComponent * i + j]), MinOffset(j), MaxOffset(j), CountSimulated(t.replies));
      }
    }
  }

  /** The replies of a session are those of its commands, then the exit message
      if it ended by `exit`; so it prints the same acknowledgements. */
  lemma {:induction false} SessionReplies(a: Accelerator, tokens: seq<string>, parse: string -> Option<real>,
                                          rand: nat -> nat, used: nat)
    requires Valid(a)
    ensures var s := Run(a, tokens, parse, rand, used);
            var e := Execute(a, ReadScript(tokens, parse).cmds, rand, used);
            && s.state == e.state && s.drawsUsed == e.drawsUsed
            && (Changed in s.replies <==> Changed in e.replies)
            && (Simulated in s.replies <==> Simulated in e.replies)
            && CountSimulated(s.replies) == CountSimulated(e.replies)
            && (s.halt == Exited <==> |s.replies| > 0 && s.replies[|s.replies| - 1] == Exiting)
    ensures var s := Run(a, tokens, parse, rand, used);
            var e := Execute(a, ReadScript(tokens, parse).cmds, rand, used);
            s.replies == e.replies + (if s.halt == Exited then [Exiting] else [])
  {
    RunReadsThenExecutes(a, tokens, parse, rand, used);
    var p := ReadScript(tokens, parse);
    var e := Execute(a, p.cmds, rand, used);
    ExecuteNeverExits(a, p.cmds, rand, used);
    if p.halt == Exited {
      CountSimulatedAppend(e.replies, Exiting);
      assert (e.replies + [Exiting])[|e.replies|] == Exiting;
    } else {
      assert e.replies + [] == e.replies;
      assert |e.replies| > 0 ==> e.replies[|e.replies| - 1] in e.replies;
    }
  }

  /** A session ends with `exit` exactly when its last reply is the exit message. */
  lemma {:induction false} ExitedIffLastReplyExiting(a: Accelerator, tokens: seq<string>,
                                                     parse: string -> Option<real>, rand: nat -> nat, used: nat)
    requires Valid(a)
    ensures var s := Run(a, tokens, parse, rand, used);
            s.halt == Exited <==> |s.replies| > 0 && s.replies[|s.replies| - 1] == Exiting
  {
    SessionReplies(a, tokens, parse, rand, used);
  }

  /** A session consumes 64 draws for every `simulate` it acknowledges and no others. */
  lemma {:induction false} SessionCountsDraws(a: Accelerator, tokens: seq<string>,
                                              parse: string -> Option<real>, rand: nat -> nat, used: nat)
    requires Valid(a)
    ensures var s := Run(a, tokens, parse, rand, used);
            s.drawsUsed == used + DrawsPerStep * CountSimulated(s.replies)
  {
    SessionReplies(a, tokens, parse, rand, used);
    ExecuteCountsDraws(a, ReadScript(tokens, parse).cmds, rand, used);
  }

  /** A session that acknowledges no `changeEnergy` keeps the particle settings. */
  lemma {:induction false} SessionKeepsParticle(a: Accelerator, tokens: seq<string>,
                                                parse: string -> Option<real>, rand: nat -> nat, used: nat)
    requires Valid(a)
    ensures var s := Run(a, tokens, parse, rand, used);
            Changed !in s.replies ==>
              s.state.particleEnergy == a.particleEnergy && s.state.particleType == a.particleType
  {
    SessionReplies(a, tokens, parse, rand, used);
    ExecuteKeepsParticle(a, ReadScript(tokens, parse).cmds, rand, used);
  }

  /** Every session keeps the component names; one that acknowledges no
      `simulate` keeps every component. */
  lemma {:induction false} SessionKeepsComponents(a: Accelerator, tokens: seq<string>,
                                                  parse: string -> Option<real>, rand: nat -> nat, used: nat)
    requires Valid(a)
    ensures var s := Run(a, tokens, parse, rand, used);
            Simulated !in s.replies ==> s.state.components == a.components
    ensures var s := Run(a, tokens, parse, rand, used);
            forall i | 0 <= i < ComponentCount :: s.state.components[i].name == a.components[i].name
  {
    SessionReplies(a, tokens, parse, rand, used);
    var cmds := ReadScript(tokens, parse).cmds;
    ExecuteKeepsComponents(a, cmds, rand, used);
    forall i | 0 <= i < ComponentCount
      ensures Execute(a, cmds, rand, used).state.components[i].name == a.components[i].name
    {
      ExecuteKeepsNames(a, cmds, rand, used, i);
    }
  }

  /** Over a session, field `j` of component `i` moves by at least `MinOffset(j)`
      and at most `MaxOffset(j)` hundredths per acknowledged `simulate`. */
  lemma {:induction false} SessionDrift(a: Accelerator, tokens: seq<string>, parse: string -> Option<real>,
                                        rand: nat -> nat, used: nat, i: nat, j: nat)
    requires Valid(a) && i < ComponentCount && j < FieldCount
    ensures var s := Run(a, tokens, parse, rand, used);
            var k := CountSimulated(s.replies);
            var f := Field(s.state.components[i], j);
            && Field(a.components[i], j) + Hundredths(MinOffset(j) * k) <= f
            && f <= Field(a.components[i], j) + Hundredths(MaxOffset(j) * k)
  {
    SessionReplies(a, tokens, parse, rand, used);
    ExecuteDrift(a, ReadScript(tokens, parse).cmds, rand, used, i, j);
  }

  /** From start-up with no draws used, after `k` acknowledged `simulate` commands
      exactly `64 k` draws are used, energy and beam size lie in [-0.02 k, 0.01 k]
      and the other six fields in [-0.05 k, 0.04 k]. */
  lemma {:induction false} SessionDriftFromInit(tokens: seq<string>, parse: string -> Option<real>,
                                                rand: nat -> nat, i: nat, j: nat)
    requires i < ComponentCount && j < FieldCount
    ensures var s := Run(Init(), tokens, parse, rand, 0);
            s.drawsUsed == DrawsPerStep * CountSimulated(s.replies)
    ensures var s := Run(Init(), tokens, parse, rand, 0);
            var k := CountSimulated(s.replies) as real;
            var f := Field(s.state.components[i], j);
            IsNarrow(j) ==> -0.02 * k <= f <= 0.01 * k
    ensures var s := Run(Init(), tokens, parse, rand, 0);
            var k := CountSimulated(s.replies) as real;
            var f := Field(s.state.components[i], j);
            !IsNarrow(j) ==> -0.05 * k <= f <= 0.04 * k
  {
    SessionCountsDraws(Init(), tokens, parse, rand, 0);
    SessionDrift(Init(), tokens, parse, rand, 0, i, j);
  }

  /** `exit` ends the session at once: the record is as it was, no draw is used,
      and nothing after it is read. */
  lemma {:induction false} ExitTerminates(a: Accelerator, tokens: seq<string>, parse: string -> Option<real>,
                                          rand: nat -> nat, used: nat)
    requires Valid(a) && 0 < |tokens| && tokens[0] == "exit"
    ensures Run(a, tokens, parse, rand, used) == Session(a, Exited, [Exiting], used)
  {
  }

  /** `status`, `help` and any other word that fits the buffer only print: the
      session goes on from the same record and draw position. */
  lemma {:induction false} ReadOnlyCommandsKeepState(a: Accelerator, tokens: seq<string>,
                                                     parse: string -> Option<real>, rand: nat -> nat, used: nat)
    requires Valid(a) && 0 < |tokens| && FitsBuffer(tokens[0])
    requires tokens[0] !in {"exit", "changeEnergy", "simulate"}
    ensures var t := Run(a, tokens[1..], parse, rand, used);
            var reply := if tokens[0] == "status" then Report(StatusView(a.particleEnergy, a.particleType, Fields(a.components[0])))
                         else if tokens[0] == "help" then CommandList
                         else UnknownCommand;
            Run(a, tokens, parse, rand, used) == t.(replies := [reply] + t.replies)
  {
    RunUnfold(a, tokens, parse, rand, used);
  }

  /** `simulate` applies one step to the next 64 draws and goes on 64 draws later. */
  lemma {:induction false} SimulateSteps(a: Accelerator, tokens: seq<string>, parse: string -> Option<real>,
                                         rand: nat -> nat, used: nat)
    requires Valid(a) && 0 < |tokens| && tokens[0] == "simulate"
    ensures forall k | 0 <= k < DrawsPerStep :: Window(rand, used)[k] == rand(used + k)
    ensures var t := Run(Step(a, Window(rand, used)), tokens[1..], parse, rand, used + DrawsPerStep);
            Run(a, tokens, parse, rand, used) == t.(replies := [Simulated] + t.replies)
  {
    RunUnfold(a, tokens, parse, rand, used);
    forall k | 0 <= k < DrawsPerStep
      ensures Window(rand, used)[k] == rand(used + k)
    {
      WindowIsNextDraws(rand, used, k);
    }
  }

  /** `changeEnergy` with a readable number and a type that fits its buffer
      reconfigures the record and goes on after its three tokens. */
  lemma {:induction false} ChangeEnergyReconfigures(a: Accelerator, tokens: seq<string>, parse: string -> Option<real>,
                                                    rand: nat -> nat, used: nat, e: real)
    requires Valid(a) && 3 <= |tokens| && tokens[0] == "changeEnergy"
    requires parse(tokens[1]) == Some(e) && FitsBuffer(tokens[2])
    ensures var t := Run(Change(a, e, tokens[2]), tokens[3..], parse, rand, used);
            Run(a, tokens, parse, rand, used) == t.(replies := [Changed] + t.replies)
  {
    RunUnfold(a, tokens, parse, rand, used);
  }

  /** `changeEnergy` whose number cannot be read, or whose type overflows its
      buffer, makes the source's behaviour undefined; with its arguments missing
      the input is exhausted. Either way the record is left as it was. */
  lemma {:induction false} ChangeEnergyUndefinedInputs(a: Accelerator, tokens: seq<string>,
                                                       parse: string -> Option<real>, rand: nat -> nat, used: nat)
    requires Valid(a) && 0 < |tokens| && tokens[0] == "changeEnergy"
    ensures 2 <= |tokens| && parse(tokens[1]).None? ==>
              Run(a, tokens, parse, rand, used) == Session(a, Undefined, [], used)
    ensures 3 <= |tokens| && parse(tokens[1]).Some? && !FitsBuffer(tokens[2]) ==>
              Run(a, tokens, parse, rand, used) == Session(a, Undefined, [], used)
    ensures (|tokens| < 2 || (|tokens| < 3 && parse(tokens[1]).Some?)) ==>
              Run(a, tokens, parse, rand, used) == Session(a, InputExhausted, [], used)
  {
  }

  /** The input `bogus help exit` prints the unknown-command line and the command
      list, then exits cleanly with the record untouched. */
  lemma BogusHelpExit(a: Accelerator, parse: string -> Option<real>, rand: nat -> nat, used: nat)
    requires Valid(a)
    ensures Run(a, ["bogus", "help", "exit"], parse, rand, used)
         == Session(a, Exited, [UnknownCommand, CommandList, Exiting], used)
  {
    var tokens := ["bogus", "help", "exit"];
    assert "bogus" !in Keywords;
    RunUnfold(a, tokens, parse, rand, used);
    assert tokens[1..] == ["help", "exit"];
    RunUnfold(a, tokens[1..], parse, rand, used);
    assert tokens[1..][1..] == ["exit"];
  }

  /** `changeEnergy 42.5 Proton` followed by `status` reports 42.5, "Proton" and
      the untouched component 0, and the input then runs out. */
  lemma ChangeThenStatus(a: Accelerator, parse: string -> Option<real>, rand: nat -> nat, used: nat)
    requires Valid(a) && parse("42.5") == Some(42.5)
    ensures Run(a, ["changeEnergy", "42.5", "Proton", "status"], parse, rand, used)
         == Session(Change(a, 42.5, "Proton"), InputExhausted,
                    [Changed, Report(StatusView(42.5, "Proton", Fields(a.components[0])))], used)
  {
    var tokens := ["changeEnergy", "42.5", "Proton", "status"];
    RunUnfold(a, tokens, parse, rand, used);
    assert tokens[3..] == ["status"];
    var b := Change(a, 42.5, "Proton");
    RunUnfold(b, ["status"], parse, rand, used);
    assert ["status"][1..] == [];
  }
}
