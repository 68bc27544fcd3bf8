/**
 * `CommandableGrpcService`: a service whose only wire method is `invoke` and
 * whose commands come from a controller's command set. Java's inheritance
 * from `GrpcService` is modelled by composition: the service's lifecycle,
 * builder and command table live in `base`.
 */
module CommandableServices {
  import opened Wrappers
  import opened Json
  import opened Endpoint
  import opened CommandableProtocol
  import opened GrpcServices
  import opened Instrumentation

  /** The name of the commandable service descriptor (`commandable.Commandable`). */
  const CommandableServiceName := "commandable.Commandable"

  /** One entry of a controller's command set. */
  datatype Command = Command(name: string, execute: CommandFunction)

  /** What the per-command wrapper returns: a thrown exception is turned into a returned one. */
  function Instrumented(execute: CommandFunction): (wrapped: CommandFunction)
    ensures forall correlationId, args :: !wrapped(correlationId, args).Threw?
    ensures forall correlationId, args :: !execute(correlationId, args).Threw? ==>
      wrapped(correlationId, args) == execute(correlationId, args)
    ensures forall correlationId, args :: execute(correlationId, args).Threw? ==>
      wrapped(correlationId, args) == ReturnedException(execute(correlationId, args).exception)
  {
    (correlationId, args) =>
      match execute(correlationId, args)
      case Threw(e) => ReturnedException(e)
      case other => other
  }

  /**
   * One call of the per-command wrapper with its timing: `endFailure` when the
   * command throws, then `endTiming` on every path.
   */
  method RunInstrumented(methodName: string, execute: CommandFunction, correlationId: string, args: Value)
    returns (result: ActionResult, timing: InstrumentTiming)
    ensures fresh(timing) && timing.name == methodName && timing.correlationId == Some(correlationId)
    ensures result == Instrumented(execute)(correlationId, args)
    ensures timing.events == (if execute(correlationId, args).Threw? then [FailureEnded, TimingEnded] else [TimingEnded])
  {
    timing := new InstrumentTiming(Some(correlationId), methodName);
    var outcome := execute(correlationId, args);
    if outcome.Threw? {
      timing.EndFailure();
      result := ReturnedException(outcome.exception);
    } else {
      result := outcome;
    }
    timing.EndTiming();
  }

  /** The table after `register` has stored, in order, the wrapped commands of `service`. */
  function Registered(table: CommandTable, service: string, commands: seq<Command>): CommandTable
    decreases |commands|
  {
    if |commands| == 0 then table
    else
      var last := commands[|commands| - 1];
      Registered(table, service, commands[..|commands| - 1])[QualifiedName(service, last.name) := Instrumented(last.execute)]
  }

  /** Registration adds one key per command and removes none. */
  lemma {:induction false} RegisteredKeys(table: CommandTable, service: string, commands: seq<Command>)
    ensures Registered(table, service, commands).Keys
      == table.Keys + (set i | 0 <= i < |commands| :: QualifiedName(service, commands[i].name))
    decreases |commands|
  {
    if |commands| > 0 {
      var n := |commands| - 1;
      RegisteredKeys(table, service, commands[..n]);
      var before := set i | 0 <= i < n :: QualifiedName(service, commands[..n][i].name);
      var after := set i | 0 <= i < |commands| :: QualifiedName(service, commands[i].name);
      assert after == before + {QualifiedName(service, commands[n].name)} by {
        forall k | k in after ensures k in before + {QualifiedName(service, commands[n].name)} {
          var i :| 0 <= i < |commands| && k == QualifiedName(service, commands[i].name);
          if i < n { assert commands[..n][i] == commands[i]; }
        }
        forall k | k in before ensures k in after {
          var i :| 0 <= i < n && k == QualifiedName(service, commands[..n][i].name);
          assert commands[..n][i] == commands[i];
        }
      }
    }
  }

  /** A command's key maps to its wrapped action unless a later command of the same name replaced it. */
  lemma {:induction false} RegisteredLastWins(table: CommandTable, service: string, commands: seq<Command>, i: nat)
    requires i < |commands|
    requires forall j :: i < j < |commands| ==> commands[j].name != commands[i].name
    ensures QualifiedName(service, commands[i].name) in Registered(table, service, commands)
    ensures Registered(table, service, commands)[QualifiedName(service, commands[i].name)]
      == Instrumented(commands[i].execute)
    decreases |commands|
  {
    var n := |commands| - 1;
    if i < n {
      QualifiedNameSameService(service, commands[n].name, commands[i].name);
      forall j | i < j < n ensures commands[..n][j].name != commands[..n][i].name {
        assert commands[..n][j] == commands[j];
      }
      RegisteredLastWins(table, service, commands[..n], i);
      assert commands[..n][i] == commands[i];
    }
  }

  /** Keys that no command produces keep their earlier entry. */
  lemma {:induction false} RegisteredKeepsOthers(table: CommandTable, service: string, commands: seq<Command>, key: string)
    requires forall i :: 0 <= i < |commands| ==> QualifiedName(service, commands[i].name) != key
    ensures key in Registered(table, service, commands) <==> key in table
    ensures key in table ==> Registered(table, service, commands)[key] == table[key]
    decreases |commands|
  {
    if |commands| > 0 {
      var n := |commands| - 1;
      forall i | 0 <= i < n ensures QualifiedName(service, commands[..n][i].name) != key {
        assert commands[..n][i] == commands[i];
      }
      RegisteredKeepsOthers(table, service, commands[..n], key);
    }
  }

  /** An entry that registration added never throws: the wrapper catches every exception. */
  lemma {:induction false} RegisteredEntriesNeverThrow(table: CommandTable, service: string, commands: seq<Command>,
                                                       key: string, correlationId: string, args: Value)
    requires key in Registered(table, service, commands) && key !in table
    ensures !Registered(table, service, commands)[key](correlationId, args).Threw?
    decreases |commands|
  {
    var n := |commands| - 1;
    if key != QualifiedName(service, commands[n].name) {
      RegisteredEntriesNeverThrow(table, service, commands[..n], key, correlationId, args);
    }
  }

  /** The `StreamObserver` an `invoke` call answers through. */
  datatype ObserverEvent = OnNext(reply: InvokeReply) | OnCompleted

  class ResponseObserver {
    var events: seq<ObserverEvent>

    constructor ()
      ensures events == []
    {
      events := [];
    }

    method OnNextReply(reply: InvokeReply)
      modifies this`events
      ensures events == old(events) + [OnNext(reply)]
    {
      events := events + [OnNext(reply)];
    }

    method Completed()
      modifies this`events
      ensures events == old(events) + [OnCompleted]
    {
      events := events + [OnCompleted];
    }
  }

  class CommandableGrpcService {
    const base: GrpcService
    const name: string

    /** A `null` name falls back to the service descriptor's name. */
    constructor (name: Option<string>)
      ensures this.name == name.GetOr(CommandableServiceName)
      ensures fresh(base) && base.serviceName == CommandableServiceName
      ensures base.builder == [] && base.commandableMethods == map[]
      ensures !base.isOpened && base.endpoint == null
    {
      this.name := name.GetOr(CommandableServiceName);
      base := new GrpcService(CommandableServiceName);
    }

    /** Stores `action` under `methodName`, replacing an earlier entry of that name. */
    method RegisterCommandableMethod(methodName: string, action: CommandFunction)
      modifies base`commandableMethods
      ensures base.commandableMethods == old(base.commandableMethods)[methodName := action]
    {
      base.commandableMethods := base.commandableMethods[methodName := action];
    }

    /** Registers the `invoke` wire method and one wrapped table entry per command, in order. */
    method Register(commands: seq<Command>)
      modifies base`builder, base`commandableMethods
      ensures base.builder == old(base.builder) + [InvokeMethodName]
      ensures base.commandableMethods == Registered(old(base.commandableMethods), name, commands)
    {
      base.RegisterMethod(InvokeMethodName);
      for i := 0 to |commands|
        invariant base.builder == old(base.builder) + [InvokeMethodName]
        invariant base.commandableMethods == Registered(old(base.commandableMethods), name, commands[..i])
      {
        var methodName := QualifiedName(name, commands[i].name);
        assert commands[..i + 1][..i] == commands[..i];
        RegisterCommandableMethod(methodName, Instrumented(commands[i].execute));
      }
      assert commands[..|commands|] == commands;
    }

    /**
     * `registerService`, the callback the endpoint runs: registers the routes,
     * then hands the built definition to the endpoint if there is one.
     */
    method RegisterService(commands: seq<Command>)
      modifies base`builder, base`commandableMethods, Present(base.endpoint)`services
      ensures base.builder == old(base.builder) + [InvokeMethodName]
      ensures base.commandableMethods == Registered(old(base.commandableMethods), name, commands)
      ensures base.endpoint != null ==>
        base.endpoint.services == old(base.endpoint.services) + [base.Definition()]
    {
      Register(commands);
      if base.endpoint != null {
        base.endpoint.RegisterService(base.Definition());
      }
    }

    /** Answers one `invoke` call: exactly one reply, then completion. */
    method InvokeCommand(request: InvokeRequest, observer: ResponseObserver)
      modifies observer`events
      ensures observer.events
        == old(observer.events) + [OnNext(InvokeReplyFor(base.commandableMethods, request)), OnCompleted]
    {
      observer.OnNextReply(InvokeReplyFor(base.commandableMethods, request));
      observer.Completed();
    }
  }

  /**
   * Two commandable services named "alpha" and "beta" each expose a command
   * "ping": a call to "alpha.ping" is answered from alpha's handler, one to
   * "beta.ping" from beta's, and neither table has an entry for the other.
   */
  method RoutingStaysWithinService(alphaPing: CommandFunction, betaPing: CommandFunction, correlationId: string)
    returns (alphaReply: InvokeReply, betaReply: InvokeReply, alphaHasBeta: bool, betaHasAlpha: bool)
    ensures alphaReply == ActionReply(InvokeRequest("alpha.ping", correlationId, true, ""), Instrumented(alphaPing)(correlationId, EmptyObject))
    ensures betaReply == ActionReply(InvokeRequest("beta.ping", correlationId, true, ""), Instrumented(betaPing)(correlationId, EmptyObject))
    ensures !alphaHasBeta && !betaHasAlpha
  {
    var alpha := new CommandableGrpcService(Some("alpha"));
    alpha.Register([Command("ping", alphaPing)]);
    assert alpha.base.commandableMethods == map["alpha.ping" := Instrumented(alphaPing)] by {
      assert [Command("ping", alphaPing)][..0] == [];
      assert QualifiedName("alpha", "ping") == "alpha.ping";
    }
    var beta := new CommandableGrpcService(Some("beta"));
    beta.Register([Command("ping", betaPing)]);
    assert beta.base.commandableMethods == map["beta.ping" := Instrumented(betaPing)] by {
      assert [Command("ping", betaPing)][..0] == [];
      assert QualifiedName("beta", "ping") == "beta.ping";
    }
    alphaReply := InvokeReplyFor(alpha.base.commandableMethods, InvokeRequest("alpha.ping", correlationId, true, ""));
    betaReply := InvokeReplyFor(beta.base.commandableMethods, InvokeRequest("beta.ping", correlationId, true, ""));
    alphaHasBeta := "beta.ping" in alpha.base.commandableMethods;
    betaHasAlpha := "alpha.ping" in beta.base.commandableMethods;
  }
}
