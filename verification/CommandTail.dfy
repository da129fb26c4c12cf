/** The cache of command logs: metadata of the latest events and a bounded tail of each output stream. */
module CommandTail {
  import opened Seqs

  const MAX_LENGTH := 4000

  /** Strings of the runtime are sequences of UTF-16 code units; a tail is cut between units. */
  type Text = seq<bv16>

  datatype Status = Running | Completed | Failed | Timeout | Killed | Cancelled

  datatype LifecycleType = CommandStarted | CommandCompleted | CommandFailed | CommandCancelled

  datatype OutputStream = Stdout | Stderr

  /**
   A cached command. fields holds the presentation fields any event may set, details those only
   lifecycle events set (exit code, shell, paths, duration).
   */
  datatype CommandLog = CommandLog(
    taskId: string,
    fields: map<string, string>,
    command: string,
    cwd: string,
    details: map<string, string>,
    status: Status,
    startedAt: int,
    finishedAt: Option<int>,
    stdout: Option<Text>,
    stderr: Option<Text>)

  datatype CommandEvent =
    | Lifecycle(commandId: string, taskId: string, ts: int, fields: map<string, string>, kind: LifecycleType,
                command: Option<string>, cwd: Option<string>, status: Option<Status>, details: map<string, string>)
    | Output(commandId: string, taskId: string, ts: int, fields: map<string, string>, stream: OutputStream, chunk: Text)

  type Logs = map<string, CommandLog>

  // ---- The updates --------------------------------------------------------------------------

  function Tail(maxLength: nat, text: Text): (tail: Text)
    ensures |tail| <= maxLength
  {
    if |text| <= maxLength then text else text[|text| - maxLength..]
  }

  /** appendCommandOutputTail */
  function AppendTail(current: Text, chunk: Text): Text {
    Tail(MAX_LENGTH, current + chunk)
  }

  /** commandLifecycleStatus */
  function LifecycleStatus(kind: LifecycleType, status: Option<Status>): Status {
    if status.Some? then status.value
    else
      match kind
      case CommandStarted => Running
      case CommandCompleted => Completed
      case CommandCancelled => Cancelled
      case CommandFailed => Failed
  }

  function FirstCommand(first: Option<string>, e: CommandEvent): string {
    if first.Some? then first.value
    else if "target" in e.fields then e.fields["target"]
    else e.commandId
  }

  function Get<T>(o: Option<T>, default: T): T {
    if o.Some? then o.value else default
  }

  function Existing(logs: Logs, id: string): Option<CommandLog> {
    if id in logs then Some(logs[id]) else None
  }

  /** rememberCommandLifecycleEvent */
  function AfterLifecycle(existing: Option<CommandLog>, e: CommandEvent): CommandLog
    requires e.Lifecycle?
  {
    match existing
    case None =>
      CommandLog(e.taskId, e.fields, FirstCommand(e.command, e), Get(e.cwd, ""), e.details, LifecycleStatus(e.kind, e.status),
                 e.ts, if e.kind == CommandStarted then None else Some(e.ts), None, None)
    case Some(log) =>
      CommandLog(e.taskId, log.fields + e.fields, Get(e.command, log.command), Get(e.cwd, log.cwd), log.details + e.details,
                 LifecycleStatus(e.kind, e.status), log.startedAt,
                 if e.kind == CommandStarted then log.finishedAt else Some(e.ts), log.stdout, log.stderr)
  }

  function GrownTail(current: Option<Text>, own: bool, chunk: Text): Option<Text> {
    if own then Some(AppendTail(Get(current, []), chunk)) else current
  }

  /** rememberCommandOutputEvent */
  function AfterOutput(existing: Option<CommandLog>, e: CommandEvent): CommandLog
    requires e.Output?
  {
    match existing
    case None =>
      CommandLog(e.taskId, e.fields, FirstCommand(None, e), "", map[], Running, e.ts, None,
                 GrownTail(None, e.stream == Stdout, e.chunk), GrownTail(None, e.stream == Stderr, e.chunk))
    case Some(log) =>
      log.(taskId := e.taskId, fields := log.fields + e.fields,
      stdout := GrownTail(log.stdout, e.stream == Stdout, e.chunk),
      stderr := GrownTail(log.stderr, e.stream == Stderr, e.chunk))
  }

  /** Events without a command, and output without a chunk, are ignored. */
  predicate Counts(e: CommandEvent) {
    e.commandId != "" && (e.Output? ==> e.chunk != [])
  }

  function Remember(logs: Logs, e: CommandEvent): Logs {
    if !Counts(e) then logs
    else if e.Lifecycle? then logs[e.commandId := AfterLifecycle(Existing(logs, e.commandId), e)]
    else logs[e.commandId := AfterOutput(Existing(logs, e.commandId), e)]
  }

  function RememberAll(events: seq<CommandEvent>): Logs {
    if events == [] then map[] else Remember(RememberAll(events[..|events| - 1]), events[|events| - 1])
  }

  // ---- What the events say -------------------------------------------------------------------

  predicate Concerns(e: CommandEvent, id: string) {
    Counts(e) && e.commandId == id
  }

  function Concerning(id: string): CommandEvent -> bool {
    (e: CommandEvent) => Concerns(e, id)
  }

  /** The events of one command. */
  function Of(events: seq<CommandEvent>, id: string): seq<CommandEvent> {
    Filter(Concerning(id), events)
  }

  /** Everything a command wrote to a stream. */
  function WholeStream(events: seq<CommandEvent>, stream: OutputStream): Text {
    if events == [] then []
    else
      WholeStream(events[..|events| - 1], stream)
      + if events[|events| - 1].Output? && events[|events| - 1].stream == stream then events[|events| - 1].chunk else []
  }

  /** The last lifecycle event, or None; ends counts only those that are no start. */
  function LastLifecycle(events: seq<CommandEvent>, ends: bool): Option<CommandEvent> {
    if events == [] then None
    else
      var e := events[|events| - 1];
      if e.Lifecycle? && !(ends && e.kind == CommandStarted) then Some(e) else LastLifecycle(events[..|events| - 1], ends)
  }

  function StreamTail(own: seq<CommandEvent>, stream: OutputStream): Option<Text> {
    var whole := WholeStream(own, stream);
    if whole == [] then None else Some(Tail(MAX_LENGTH, whole))
  }

  /** The fields the events set, later ones over earlier ones. */
  function AllFields(events: seq<CommandEvent>): map<string, string> {
    if events == [] then map[] else AllFields(events[..|events| - 1]) + events[|events| - 1].fields
  }

  function AllDetails(events: seq<CommandEvent>): map<string, string> {
    if events == [] then map[]
    else
      var e := events[|events| - 1];
      if e.Lifecycle? then AllDetails(events[..|events| - 1]) + e.details else AllDetails(events[..|events| - 1])
  }

  /** The last directory, or command, a lifecycle event gave. */
  function LastCwd(events: seq<CommandEvent>): Option<string> {
    if events == [] then None
    else
      var e := events[|events| - 1];
      if e.Lifecycle? && e.cwd.Some? then e.cwd else LastCwd(events[..|events| - 1])
  }

  function LastCommand(events: seq<CommandEvent>): Option<string> {
    if events == [] then None
    else
      var e := events[|events| - 1];
      if e.Lifecycle? && e.command.Some? then e.command else LastCommand(events[..|events| - 1])
  }

  /** What the descriptive parts of an entry amount to. */
  ghost predicate Describes(log: CommandLog, own: seq<CommandEvent>)
    requires own != []
  {
    && log.fields == AllFields(own) && log.details == AllDetails(own)
    && log.cwd == Get(LastCwd(own), "")
    && log.command == Get(LastCommand(own), FirstCommand(None, own[0]))
  }

  /** log is what the events of its command amount to. */
  ghost predicate Reflects(log: CommandLog, own: seq<CommandEvent>)
    requires own != []
  {
    var last, end := LastLifecycle(own, false), LastLifecycle(own, true);
    && log.stdout == StreamTail(own, Stdout)
    && log.stderr == StreamTail(own, Stderr)
    && Describes(log, own)
    && log.startedAt == own[0].ts
    && log.taskId == own[|own| - 1].taskId
    && log.finishedAt == (if end.Some? then Some(end.value.ts) else None)
    && log.status == if last.Some? && last.value.Lifecycle? then LifecycleStatus(last.value.kind, last.value.status) else Running
  }

  // ---- Tails ------------------------------------------------------------------------------------

  /** Cutting before appending loses nothing a later cut would keep. */
  lemma TailOfTail(maxLength: nat, text: Text, chunk: Text)
    ensures Tail(maxLength, Tail(maxLength, text) + chunk) == Tail(maxLength, text + chunk)
  {
    if |text| > maxLength {
      var cut := text[|text| - maxLength..];
      assert text == text[..|text| - maxLength] + cut;
      assert (text + chunk)[|text| - maxLength..] == cut + chunk;
      assert Tail(maxLength, text + chunk) == (cut + chunk)[|chunk|..];
    }
  }

  /** A tail is the end of the text, all of it when it is short enough. */
  lemma TailIs(maxLength: nat, text: Text)
    ensures var tail := Tail(maxLength, text);
            |tail| == (if |text| < maxLength then |text| else maxLength) && text[|text| - |tail|..] == tail
    ensures MAX_LENGTH == 4000
  {
  }

  /** The status of a lifecycle event: the one it brings, or that of its type. */
  lemma StatusIs(e: CommandEvent)
    requires e.Lifecycle?
    ensures e.status.Some? ==> LifecycleStatus(e.kind, e.status) == e.status.value
    ensures e.status.None? ==>
              && (e.kind == CommandStarted ==> LifecycleStatus(e.kind, e.status) == Running)
              && (e.kind == CommandCompleted ==> LifecycleStatus(e.kind, e.status) == Completed)
              && (e.kind == CommandFailed ==> LifecycleStatus(e.kind, e.status) == Failed)
              && (e.kind == CommandCancelled ==> LifecycleStatus(e.kind, e.status) == Cancelled)
  {
  }

  /** Events without a command, and output without a chunk, change nothing; all others concern their command. */
  lemma CountsIff(logs: Logs, e: CommandEvent)
    ensures Counts(e) <==> e.commandId != "" && (e.Lifecycle? || e.chunk != [])
    ensures !Counts(e) ==> Remember(logs, e) == logs
  {
  }

  /** Without a command of its own, an entry is named by the target of its first event, or by its id. */
  lemma NameIs(e: CommandEvent)
    ensures FirstCommand(None, e) == if "target" in e.fields then e.fields["target"] else e.commandId
    ensures forall c :: FirstCommand(Some(c), e) == c
  {
  }

  /** A field has the value of the last event that sets it. */
  lemma {:induction false} FieldIsLast(events: seq<CommandEvent>, key: string)
    ensures key in AllFields(events) <==> exists e :: e in events && key in e.fields
    ensures forall k | 0 <= k < |events| && key in events[k].fields && (forall j | k < j < |events| :: key !in events[j].fields) ::
              key in AllFields(events) && AllFields(events)[key] == events[k].fields[key]
  {
    if events != [] {
      var init, last := events[..|events| - 1], events[|events| - 1];
      assert events == init + [last];
      FieldIsLast(init, key);
      forall k | 0 <= k < |events| && key in events[k].fields && (forall j | k < j < |events| :: key !in events[j].fields)
        ensures key in AllFields(events) && AllFields(events)[key] == events[k].fields[key]
      {
        if k < |init| {
          assert init[k] == events[k] && forall j | k < j < |init| :: init[j] == events[j];
        }
      }
    }
  }

  lemma StreamStep(own: seq<CommandEvent>, e: CommandEvent, stream: OutputStream)
    requires e.Output? ==> e.chunk != []
    ensures StreamTail(own + [e], stream)
            == if e.Output? then GrownTail(StreamTail(own, stream), e.stream == stream, e.chunk) else StreamTail(own, stream)
  {
    var whole := WholeStream(own, stream);
    assert (own + [e])[..|own|] == own;
    if e.Output? && e.stream == stream {
      TailOfTail(MAX_LENGTH, whole, e.chunk);
      assert [] + e.chunk == e.chunk;
    } else {
      assert whole + [] == whole;
    }
  }

  lemma {:induction false} LifecycleStep(own: seq<CommandEvent>, e: CommandEvent, ends: bool)
    ensures LastLifecycle(own + [e], ends)
            == if e.Lifecycle? && !(ends && e.kind == CommandStarted) then Some(e) else LastLifecycle(own, ends)
    ensures LastLifecycle([e], ends) == if e.Lifecycle? && !(ends && e.kind == CommandStarted) then Some(e) else None
  {
    assert (own + [e])[..|own|] == own;
    assert [e][..0] == [];
  }

  lemma {:induction false} DescribesStep(own: seq<CommandEvent>, e: CommandEvent)
    ensures AllFields(own + [e]) == AllFields(own) + e.fields
    ensures AllDetails(own + [e]) == if e.Lifecycle? then AllDetails(own) + e.details else AllDetails(own)
    ensures LastCwd(own + [e]) == if e.Lifecycle? && e.cwd.Some? then e.cwd else LastCwd(own)
    ensures LastCommand(own + [e]) == if e.Lifecycle? && e.command.Some? then e.command else LastCommand(own)
  {
    assert (own + [e])[..|own|] == own;
  }

  lemma FirstDescribes(e: CommandEvent)
    ensures Describes(if e.Lifecycle? then AfterLifecycle(None, e) else AfterOutput(None, e), [e])
  {
    DescribesStep([], e);
    assert [] + [e] == [e];
    assert map[] + e.fields == e.fields && (e.Lifecycle? ==> map[] + e.details == e.details);
  }

  lemma NextDescribes(log: CommandLog, own: seq<CommandEvent>, e: CommandEvent)
    requires own != [] && Describes(log, own)
    ensures Describes(if e.Lifecycle? then AfterLifecycle(Some(log), e) else AfterOutput(Some(log), e), own + [e])
  {
    hide AllFields, AllDetails, LastCwd, LastCommand;
    DescribesStep(own, e);
  }

  lemma FirstReflects(e: CommandEvent)
    requires Counts(e)
    ensures Reflects(if e.Lifecycle? then AfterLifecycle(None, e) else AfterOutput(None, e), [e])
  {
    hide Describes;
    assert [] + [e] == [e];
    FirstDescribes(e);
    StreamStep([], e, Stdout);
    StreamStep([], e, Stderr);
    LifecycleStep([], e, false);
    LifecycleStep([], e, true);
  }

  lemma NextReflects(log: CommandLog, own: seq<CommandEvent>, e: CommandEvent)
    requires own != [] && Reflects(log, own) && Counts(e)
    ensures Reflects(if e.Lifecycle? then AfterLifecycle(Some(log), e) else AfterOutput(Some(log), e), own + [e])
  {
    hide StreamTail, LastLifecycle, Describes;
    NextDescribes(log, own, e);
    StreamStep(own, e, Stdout);
    StreamStep(own, e, Stderr);
    LifecycleStep(own, e, false);
    LifecycleStep(own, e, true);
  }

  lemma OfStep(events: seq<CommandEvent>, e: CommandEvent, id: string)
    ensures Of(events + [e], id) == Of(events, id) + if Concerns(e, id) then [e] else []
  {
    FilterAppend(Concerning(id), events, [e]);
  }

  /**
   After any interleaving of the events of any commands, a command is cached exactly when an event
   concerned it, and its entry holds the last 4000 code units of each of its whole streams, the time
   of its first event, the status and end its last lifecycle events gave it, and the fields, details,
   command and directory its events set, later ones over earlier ones.
   */
  lemma {:induction false} CacheReflectsEvents(events: seq<CommandEvent>, id: string)
    ensures id in RememberAll(events) <==> Of(events, id) != []
    ensures id in RememberAll(events) ==> Reflects(RememberAll(events)[id], Of(events, id))
  {
    hide Reflects, AfterLifecycle, AfterOutput, Counts;
    if events != [] {
      var init, e := events[..|events| - 1], events[|events| - 1];
      assert events == init + [e];
      CacheReflectsEvents(init, id);
      OfStep(init, e, id);
      if Concerns(e, id) {
        if id in RememberAll(init) {
          NextReflects(RememberAll(init)[id], Of(init, id), e);
        } else {
          FirstReflects(e);
          assert [] + [e] == [e];
        }
      } else {
        assert Of(init, id) + [] == Of(init, id);
      }
    }
  }
}
