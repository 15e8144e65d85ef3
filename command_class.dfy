/**
  A model of CommandClass.py: a command pattern in which a `Bot` keeps a
  registry from names to command objects and runs the one bound to a name.

  Printing is the only effect the source has; it is modelled as a `Stdout`
  object whose `lines` grow by one per `print`. Each `DatasetManager` also
  keeps a ghost trace of the calls it received, so that "exactly the bound
  command ran, on its own receiver" can be stated.
*/
module CommandClass {

  /** Standard output: the lines printed so far. */
  class Stdout {
    var lines: seq<string>

    constructor ()
      ensures lines == []
    {
      lines := [];
    }

    method Print(line: string)
      modifies this
      ensures lines == old(lines) + [line]
    {
      lines := lines + [line];
    }
  }

  /** The two operations a `DatasetManager` offers. */
  datatype ManagerOp = CreateDataset | ProcessData

  /** What each operation prints. */
  function OpMessage(op: ManagerOp): string
  {
    match op
    case CreateDataset => "Создание датасета..."
    case ProcessData => "Обработка данных..."
  }

  /** The receiver of the commands. */
  class DatasetManager {
    ghost var calls: seq<ManagerOp>

    constructor ()
      ensures calls == []
    {
      calls := [];
    }

    /** `create_dataset()`: prints its message. */
    method CreateDataset(out: Stdout)
      modifies this, out
      ensures calls == old(calls) + [ManagerOp.CreateDataset]
      ensures out.lines == old(out.lines) + [OpMessage(ManagerOp.CreateDataset)]
    {
      calls := calls + [ManagerOp.CreateDataset];
      out.Print("Создание датасета...");
    }

    /** `process_data()`: prints its message. */
    method ProcessData(out: Stdout)
      modifies this, out
      ensures calls == old(calls) + [ManagerOp.ProcessData]
      ensures out.lines == old(out.lines) + [OpMessage(ManagerOp.ProcessData)]
    {
      calls := calls + [ManagerOp.ProcessData];
      out.Print("Обработка данных...");
    }
  }

  /**
    The concrete subclasses of the abstract `Command`; each holds the receiver
    it was constructed with and never changes it.
  */
  datatype Command =
    | CreateDatasetCommand(receiver: DatasetManager)
    | ProcessDataCommand(receiver: DatasetManager)
  {
    /** The one receiver operation `execute` delegates to. */
    function Op(): ManagerOp
    {
      match this
      case CreateDatasetCommand(_) => ManagerOp.CreateDataset
      case ProcessDataCommand(_) => ManagerOp.ProcessData
    }

    /** `execute()`: calls exactly `Op()` on the receiver, once. */
    method Execute(out: Stdout)
      modifies receiver, out
      ensures receiver.calls == old(receiver.calls) + [Op()]
      ensures out.lines == old(out.lines) + [OpMessage(Op())]
    {
      match this
      case CreateDatasetCommand(r) => r.CreateDataset(out);
      case ProcessDataCommand(r) => r.ProcessData(out);
    }
  }

  /** The message printed for a name with no command bound to it. */
  function NotFoundMessage(name: string): string
  {
    "Команда " + name + " не найдена."
  }

  /** The objects `execute_command(name)` may change besides standard output. */
  function ReceiverOf(commands: map<string, Command>, name: string): set<object>
  {
    if name in commands then {commands[name].receiver} else {}
  }

  class Bot {
    var commands: map<string, Command>

    /** `Bot()`: an empty registry. */
    constructor ()
      ensures commands == map[]
    {
      commands := map[];
    }

    /** `set_command(name, command)`: binds `name`, replacing any earlier binding; other names keep theirs. */
    method SetCommand(name: string, command: Command)
      modifies this
      ensures commands == old(commands)[name := command]
      ensures name in commands && commands[name] == command
      ensures forall n :: n != name ==> (n in commands <==> n in old(commands))
      ensures forall n :: n != name && n in commands ==> commands[n] == old(commands[n])
    {
      commands := commands[name := command];
    }

    /**
      `execute_command(name)`: a bound name runs its command once, on its own
      receiver and on nothing else; an unbound name only prints that the
      command was not found. The registry never changes.
    */
    method ExecuteCommand(name: string, out: Stdout)
      modifies ReceiverOf(commands, name), out
      ensures commands == old(commands)
      ensures name in commands ==>
        && commands[name].receiver.calls == old(commands[name].receiver.calls) + [commands[name].Op()]
        && out.lines == old(out.lines) + [OpMessage(commands[name].Op())]
      ensures name !in commands ==> out.lines == old(out.lines) + [NotFoundMessage(name)]
    {
      if name in commands {
        commands[name].Execute(out);
      } else {
        out.Print("Команда " + name + " не найдена.");
      }
    }
  }

  /**
    The module body of CommandClass.py: one manager, a bot with "create" and
    "process" registered, then both executed in that order.
  */
  method Demo(out: Stdout) returns (manager: DatasetManager, bot: Bot)
    modifies out
    ensures fresh(manager) && fresh(bot)
    ensures bot.commands == map["create" := CreateDatasetCommand(manager), "process" := ProcessDataCommand(manager)]
    ensures manager.calls == [ManagerOp.CreateDataset, ManagerOp.ProcessData]
    ensures out.lines == old(out.lines) + ["Создание датасета...", "Обработка данных..."]
  {
    manager := new DatasetManager();
    bot := new Bot();
    bot.SetCommand("create", CreateDatasetCommand(manager));
    bot.SetCommand("process", ProcessDataCommand(manager));
    bot.ExecuteCommand("create", out);
    bot.ExecuteCommand("process", out);
  }
}
