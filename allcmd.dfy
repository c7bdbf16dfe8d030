/** The "all" command of cmd/allcmd/allcmd.go: it initialises the build,
    archive and release handlers in that order, stopping at the first error,
    and only then executes them in the same order, again stopping at the
    first error.

    A handler is represented by its scripted outcomes: the error its Init
    returns, and the error its Exec returns for a given context and argument
    list. What the handlers do is not part of this model; the calls the
    pipeline makes are recorded as a ghost trace of events. */
module AllCmd {
  import opened Common

  const CommandName := "all"

  /** A context.Context, as an opaque value. */
  datatype Context = Context(id: nat)

  /** A corecmd.CommandHandler: the error of Init (None for nil) and the
      error of Exec for each context and argument list. */
  datatype Handler = Handler(init: Option<Error>, exec: (Context, seq<string>) -> Option<Error>)

  /** A call the pipeline makes to the handler at `index` of its list. */
  datatype Event = Init(index: nat) | Exec(index: nat, ctx: Context, args: seq<string>)

  /** What running the handlers returns, and the calls it made. */
  datatype Outcome = Outcome(err: Option<Error>, trace: seq<Event>)

  // ---------------------------------------------------------------------
  // The reference definition

  /** The position of the first error among `outcomes`, or |outcomes| when
      there is none. */
  function FirstFailure(outcomes: seq<Option<Error>>): (k: nat)
    ensures k <= |outcomes|
    ensures forall j :: 0 <= j < k ==> outcomes[j].None?
    ensures k < |outcomes| ==> outcomes[k].Some?
  {
    if outcomes == [] || outcomes[0].Some? then 0 else 1 + FirstFailure(outcomes[1..])
  }

  function InitOutcomes(hs: seq<Handler>): (o: seq<Option<Error>>)
    ensures |o| == |hs| && forall i :: 0 <= i < |hs| ==> o[i] == hs[i].init
  {
    seq(|hs|, i requires 0 <= i < |hs| => hs[i].init)
  }

  function ExecOutcomes(hs: seq<Handler>, ctx: Context, args: seq<string>): (o: seq<Option<Error>>)
    ensures |o| == |hs| && forall i :: 0 <= i < |hs| ==> o[i] == hs[i].exec(ctx, args)
  {
    seq(|hs|, i requires 0 <= i < |hs| => hs[i].exec(ctx, args))
  }

  /** Init of the handlers 0 .. n-1, in order. */
  function Inits(n: nat): (t: seq<Event>)
    ensures |t| == n && forall i :: 0 <= i < n ==> t[i] == Init(i)
  {
    seq(n, i requires 0 <= i => Init(i))
  }

  /** Exec of the handlers 0 .. n-1, in order, all with `ctx` and `args`. */
  function Execs(n: nat, ctx: Context, args: seq<string>): (t: seq<Event>)
    ensures |t| == n && forall i :: 0 <= i < n ==> t[i] == Exec(i, ctx, args)
  {
    seq(n, i requires 0 <= i => Exec(i, ctx, args))
  }

  /** The two phases, stated without loops: the first Init error ends the
      run after that Init; otherwise the first Exec error ends it after
      that Exec; otherwise every handler has been initialised and then
      executed. */
  function Run(hs: seq<Handler>, ctx: Context, args: seq<string>): Outcome {
    var k := FirstFailure(InitOutcomes(hs));
    if k < |hs| then
      Outcome(hs[k].init, Inits(k + 1))
    else
      var m := FirstFailure(ExecOutcomes(hs, ctx, args));
      if m < |hs| then
        Outcome(hs[m].exec(ctx, args), Inits(|hs|) + Execs(m + 1, ctx, args))
      else
        Outcome(None, Inits(|hs|) + Execs(|hs|, ctx, args))
  }

  // ---------------------------------------------------------------------
  // The loops of all.Exec

  /** The two loops of all.Exec over its handler list. */
  method RunPhases(hs: seq<Handler>, ctx: Context, args: seq<string>)
    returns (err: Option<Error>, ghost trace: seq<Event>)
    ensures err == Run(hs, ctx, args).err
    ensures trace == Run(hs, ctx, args).trace
  {
    trace := [];
    for i := 0 to |hs|
      invariant trace == Inits(i)
      invariant forall j :: 0 <= j < i ==> hs[j].init.None?
    {
      trace := trace + [Init(i)];
      err := hs[i].init;
      if err.Some? {
        assert FirstFailure(InitOutcomes(hs)) == i;
        return;
      }
    }
    assert FirstFailure(InitOutcomes(hs)) == |hs|;
    for i := 0 to |hs|
      invariant trace == Inits(|hs|) + Execs(i, ctx, args)
      invariant forall j :: 0 <= j < i ==> hs[j].exec(ctx, args).None?
    {
      trace := trace + [Exec(i, ctx, args)];
      err := hs[i].exec(ctx, args);
      if err.Some? {
        assert FirstFailure(ExecOutcomes(hs, ctx, args)) == i;
        return;
      }
    }
    assert FirstFailure(ExecOutcomes(hs, ctx, args)) == |hs|;
    err := None;
  }

  // ---------------------------------------------------------------------
  // Properties of the two phases

  /** An Init error is returned unchanged; the handlers after it are not
      initialised and no handler is executed. */
  lemma InitFailureStopsPipeline(hs: seq<Handler>, ctx: Context, args: seq<string>, k: nat)
    requires k < |hs| && hs[k].init.Some?
    requires forall j :: 0 <= j < k ==> hs[j].init.None?
    ensures Run(hs, ctx, args).err == hs[k].init
    ensures Run(hs, ctx, args).trace == Inits(k + 1)
    ensures forall e :: e in Run(hs, ctx, args).trace ==> e.Init? && e.index <= k
  {
    assert FirstFailure(InitOutcomes(hs)) == k;
  }

  /** An Exec error is returned unchanged; the handlers after it are not
      executed, and the ones before it stay executed. */
  lemma ExecFailureStopsPipeline(hs: seq<Handler>, ctx: Context, args: seq<string>, k: nat)
    requires forall j :: 0 <= j < |hs| ==> hs[j].init.None?
    requires k < |hs| && hs[k].exec(ctx, args).Some?
    requires forall j :: 0 <= j < k ==> hs[j].exec(ctx, args).None?
    ensures Run(hs, ctx, args).err == hs[k].exec(ctx, args)
    ensures forall e :: e in Run(hs, ctx, args).trace && e.Exec? ==> e.index <= k
    ensures forall j :: 0 <= j <= k ==> Exec(j, ctx, args) in Run(hs, ctx, args).trace
  {
    assert FirstFailure(InitOutcomes(hs)) == |hs|;
    assert FirstFailure(ExecOutcomes(hs, ctx, args)) == k;
    var t := Run(hs, ctx, args).trace;
    forall j | 0 <= j <= k
      ensures Exec(j, ctx, args) in t
    {
      assert t[|hs| + j] == Exec(j, ctx, args);
    }
  }

  /** No Exec runs before every Init has returned nil: every Exec event
      comes after the Init events of all handlers, all of which succeeded. */
  lemma NoExecBeforeAllInits(hs: seq<Handler>, ctx: Context, args: seq<string>)
    ensures var t := Run(hs, ctx, args).trace;
            forall p :: 0 <= p < |t| && t[p].Exec? ==>
              |hs| <= p && t[..|hs|] == Inits(|hs|) && forall i :: 0 <= i < |hs| ==> hs[i].init.None?
  {
    var k := FirstFailure(InitOutcomes(hs));
    var t := Run(hs, ctx, args).trace;
    if k < |hs| {
      assert forall p :: 0 <= p < |t| ==> t[p].Init?;
    } else {
      assert t[..|hs|] == Inits(|hs|);
    }
  }

  /** Every Exec receives the context and the arguments the pipeline was
      given. */
  lemma ExecGetsCallersArguments(hs: seq<Handler>, ctx: Context, args: seq<string>)
    ensures forall e :: e in Run(hs, ctx, args).trace && e.Exec? ==> e.ctx == ctx && e.args == args
  {
  }

  /** The pipeline succeeds exactly when every Init and every Exec does. */
  lemma SucceedsIffEveryStepSucceeds(hs: seq<Handler>, ctx: Context, args: seq<string>)
    ensures Run(hs, ctx, args).err.None? <==>
              (forall i :: 0 <= i < |hs| ==> hs[i].init.None?) &&
              (forall i :: 0 <= i < |hs| ==> hs[i].exec(ctx, args).None?)
  {
    var k := FirstFailure(InitOutcomes(hs));
    if k == |hs| {
      var m := FirstFailure(ExecOutcomes(hs, ctx, args));
      if m < |hs| {
        assert hs[m].exec(ctx, args).Some?;
      }
    } else {
      assert hs[k].init.Some?;
    }
  }

  lemma {:induction false} InitsCount(n: nat, e: Event)
    ensures multiset(Inits(n))[e] == if e.Init? && e.index < n then 1 else 0
  {
    if n > 0 {
      InitsCount(n - 1, e);
      assert Inits(n) == Inits(n - 1) + [Init(n - 1)];
    }
  }

  lemma {:induction false} ExecsCount(n: nat, ctx: Context, args: seq<string>, e: Event)
    ensures multiset(Execs(n, ctx, args))[e] ==
              if e.Exec? && e.index < n && e.ctx == ctx && e.args == args then 1 else 0
  {
    if n > 0 {
      ExecsCount(n - 1, ctx, args, e);
      assert Execs(n, ctx, args) == Execs(n - 1, ctx, args) + [Exec(n - 1, ctx, args)];
    }
  }

  /** When the pipeline succeeds, each handler has had exactly one Init and,
      later, exactly one Exec, and nothing else happened. */
  lemma SuccessRunsEachHandlerOnce(hs: seq<Handler>, ctx: Context, args: seq<string>)
    requires Run(hs, ctx, args).err.None?
    ensures var t := Run(hs, ctx, args).trace;
            |t| == 2 * |hs| &&
            forall i :: 0 <= i < |hs| ==>
              multiset(t)[Init(i)] == 1 && multiset(t)[Exec(i, ctx, args)] == 1 &&
              t[i] == Init(i) && t[|hs| + i] == Exec(i, ctx, args)
  {
    SucceedsIffEveryStepSucceeds(hs, ctx, args);
    assert FirstFailure(InitOutcomes(hs)) == |hs|;
    assert FirstFailure(ExecOutcomes(hs, ctx, args)) == |hs|;
    var t := Run(hs, ctx, args).trace;
    assert t == Inits(|hs|) + Execs(|hs|, ctx, args);
    forall i | 0 <= i < |hs|
      ensures multiset(t)[Init(i)] == 1 && multiset(t)[Exec(i, ctx, args)] == 1
    {
      InitsCount(|hs|, Init(i));
      InitsCount(|hs|, Exec(i, ctx, args));
      ExecsCount(|hs|, ctx, args, Init(i));
      ExecsCount(|hs|, ctx, args, Exec(i, ctx, args));
    }
  }

  // ---------------------------------------------------------------------
  // The all command

  /** A logg.LevelLogger, as the fields it has been given. */
  datatype Logger = Logger(fields: seq<(string, string)>) {
    function WithField(key: string, value: string): Logger {
      Logger(fields + [(key, value)])
    }
  }

  /** The part of corecmd.Core the all command reads. */
  datatype Core = Core(infoLog: Logger)

  /** The all command: the core it belongs to and its three handlers. */
  class All {
    var infoLog: Option<Logger>
    const core: Core
    const builder: Handler
    const archivist: Handler
    const releaser: Handler

    constructor (core: Core, builder: Handler, archivist: Handler, releaser: Handler)
      ensures this.core == core && infoLog.None?
      ensures this.builder == builder && this.archivist == archivist && this.releaser == releaser
    {
      this.core := core;
      this.builder, this.archivist, this.releaser := builder, archivist, releaser;
      infoLog := None;
    }

    /** The handler list of all.Exec, in its fixed order. */
    function CommandHandlers(): seq<Handler> {
      [builder, archivist, releaser]
    }

    /** all.Init: sets the info logger, tagged with the command name, and
        never fails. */
    method Init() returns (err: Option<Error>)
      modifies this
      ensures infoLog == Some(core.infoLog.WithField("all", CommandName))
      ensures err.None?
    {
      infoLog := Some(core.infoLog.WithField("all", CommandName));
      err := None;
    }

    /** all.Exec: its own Init, then the two phases over build, archive and
        release. */
    method Exec(ctx: Context, args: seq<string>) returns (err: Option<Error>, ghost trace: seq<Event>)
      modifies this
      ensures infoLog == Some(core.infoLog.WithField("all", CommandName))
      ensures err == Run([builder, archivist, releaser], ctx, args).err
      ensures trace == Run([builder, archivist, releaser], ctx, args).trace
    {
      // Init never returns an error, so the `if err != nil` after
      // `a.Init()` in all.Exec never returns early.
      var _ := Init();
      err, trace := RunPhases(CommandHandlers(), ctx, args);
    }
  }

  /** A successful run of the all command initialises build, archive and
      release in that order, and then executes them in that order. */
  lemma AllCommandOrder(builder: Handler, archivist: Handler, releaser: Handler, ctx: Context, args: seq<string>)
    requires Run([builder, archivist, releaser], ctx, args).err.None?
    ensures Run([builder, archivist, releaser], ctx, args).trace ==
              [Init(0), Init(1), Init(2), Exec(0, ctx, args), Exec(1, ctx, args), Exec(2, ctx, args)]
  {
    SuccessRunsEachHandlerOnce([builder, archivist, releaser], ctx, args);
  }
}
