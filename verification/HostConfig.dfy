/** The model and thinking level of a session host: how commands change them and how
    a new host recovers them from the trail. */
module HostConfig {
  import opened Wrappers
  import opened SessionTypes
  import opened Trail
  import opened StorageOps

  datatype Model = Model(provider: string, modelId: string)

  type Level = string

  const LEVELS: seq<Level> := ["off", "minimal", "low", "medium", "high", "xhigh", "max"]

  /** The model catalog. Its answers come from libraries outside this model. */
  datatype Catalog = Catalog(
    models: map<Model, Model>,
    available: seq<Model>,
    authed: set<string>,
    supported: Model -> seq<Level>,
    clamp: (Model, Level) -> Level)

  /** An available model is found again under its own name, and clamping answers with
      a level of the ladder. */
  ghost predicate Coherent(c: Catalog) {
    && (forall m :: m in c.available ==> m in c.models && c.models[m] == m)
    && (forall m, l :: l in LEVELS ==> c.clamp(m, l) in LEVELS)
  }

  function GetModel(c: Catalog, provider: string, modelId: string): Option<Model> {
    if Model(provider, modelId) in c.models then Some(c.models[Model(provider, modelId)]) else None
  }

  function FirstAvailable(c: Catalog): Option<Model> {
    if c.available == [] then None else Some(c.available[0])
  }

  /** A live host: its trail and its two refs. */
  datatype Host = Host(trail: State, model: Option<Model>, level: Level)

  // ------------------------------------------------------------ recovery

  function LastModelChange(es: seq<Entry>): Option<EntryBody> {
    if es == [] then None
    else if es[|es| - 1].body.ModelChange? then Some(es[|es| - 1].body)
    else LastModelChange(es[..|es| - 1])
  }

  function LastLevelChange(es: seq<Entry>): Option<Level> {
    if es == [] then None
    else if es[|es| - 1].body.ThinkingLevelChange? && es[|es| - 1].body.level in LEVELS then
      Some(es[|es| - 1].body.level)
    else LastLevelChange(es[..|es| - 1])
  }

  /** The model the latest model entry names, if the catalog still has it. */
  function TrailModel(es: seq<Entry>, c: Catalog): Option<Model> {
    match LastModelChange(es)
    case Some(ModelChange(provider, modelId)) => GetModel(c, provider, modelId)
    case _ => None
  }

  function RecoveredModel(es: seq<Entry>, c: Catalog): Option<Model> {
    if TrailModel(es, c).Some? then TrailModel(es, c) else FirstAvailable(c)
  }

  function RecoveredLevel(es: seq<Entry>): Level {
    LastLevelChange(es).GetOr("off")
  }

  /** A new host over the same trail would have the same configuration. */
  ghost predicate Agrees(h: Host, c: Catalog) {
    h.model == RecoveredModel(h.trail.entries, c) && h.level == RecoveredLevel(h.trail.entries)
  }

  /** The recovery loop of `SessionHost.create`, over the entries oldest first. */
  method Recover(es: seq<Entry>, c: Catalog) returns (model: Option<Model>, level: Level)
    ensures model == RecoveredModel(es, c) && level == RecoveredLevel(es)
  {
    model, level := None, "off";
    for i := 0 to |es|
      invariant model == TrailModel(es[..i], c)
      invariant level == RecoveredLevel(es[..i])
    {
      assert es[..i + 1][..i] == es[..i];
      match es[i].body
      case ModelChange(provider, modelId) => model := GetModel(c, provider, modelId);
      case ThinkingLevelChange(trailLevel) =>
        if trailLevel in LEVELS {
          level := trailLevel;
        }
      case _ =>
    }
    assert es[..|es|] == es;
    if model.None? {
      model := FirstAvailable(c);
    }
  }

  // ------------------------------------------------------------- commands

  /** An append to the main lane, as the trail's storage does it, when the store takes
      the write or not. A write that fails has written nothing. */
  function Append(s: State, id: Id, body: EntryBody, now: int, put: bool): Result<State, SessionError> {
    var m :- Prepare(s, AppendEntry(id, body, MAIN, now));
    if put then Apply(s, m) else Err(StorageFault)
  }

  /** A command with what the store answers to each of its writes. */
  datatype Command =
    | SetModel(
        provider: string, modelId: string, modelEntry: Id, levelEntry: Id, at: int, modelPut: bool, levelPut: bool)
    | SetLevel(level: Level, entry: Id, when: int, put: bool)
    | Other(op: Op)  // any other write: messages, names, records, moved lanes

  function Effective(h: Host, c: Catalog, level: Level): Level {
    if h.model.None? || level in c.supported(h.model.value) then level else c.clamp(h.model.value, level)
  }

  /** `applyThinkingLevel`: the ref first, then the trail entry; a level already in
      force writes nothing. */
  function ApplyLevel(h: Host, c: Catalog, level: Level, entry: Id, now: int, put: bool): Host {
    var effective := Effective(h, c, level);
    if effective == h.level then h
    else
      match Append(h.trail, entry, ThinkingLevelChange(effective), now, put)
      case Ok(t) => Host(t, h.model, effective)
      case Err(_) => h.(level := effective)
  }

  /** `applyModel`: unknown and unauthorized models are refused; then the ref, the
      trail entry, and the level in force is clamped again. */
  function ApplyModel(h: Host, c: Catalog, provider: string, modelId: string, modelEntry: Id, levelEntry: Id,
                      now: int, modelPut: bool, levelPut: bool): Host {
    var model := GetModel(c, provider, modelId);
    if model.None? || provider !in c.authed then h
    else
      match Append(h.trail, modelEntry, ModelChange(provider, modelId), now, modelPut)
      case Ok(t) => ApplyLevel(Host(t, model, h.level), c, h.level, levelEntry, now, levelPut)
      case Err(_) => h.(model := model)
  }

  function Execute(h: Host, c: Catalog, cmd: Command): Host {
    match cmd
    case SetModel(provider, modelId, modelEntry, levelEntry, now, modelPut, levelPut) =>
      ApplyModel(h, c, provider, modelId, modelEntry, levelEntry, now, modelPut, levelPut)
    case SetLevel(level, entry, now, put) => ApplyLevel(h, c, level, entry, now, put)
    case Other(op) => h.(trail := Step(h.trail, op))
  }

  /** Only the host's own commands write model and level entries, and levels come from
      the ladder. */
  predicate Proper(cmd: Command) {
    match cmd
    case SetModel(_, _, _, _, _, _, _) => true
    case SetLevel(level, _, _, _) => level in LEVELS
    case Other(op) => op.AppendEntry? ==> !op.body.ModelChange? && !op.body.ThinkingLevelChange?
  }

  /** The store takes the entry: its id is new and the write succeeds. */
  predicate Lands(used: set<Id>, id: Id, put: bool) {
    put && id !in used
  }

  /** The command changes no ref whose entry does not land. */
  predicate Keeps(h: Host, c: Catalog, cmd: Command) {
    match cmd
    case SetModel(provider, modelId, modelEntry, levelEntry, _, modelPut, levelPut) =>
      var model := GetModel(c, provider, modelId);
      || model.None? || provider !in c.authed
      || (if Lands(h.trail.usedIds, modelEntry, modelPut)
          then
            || Lands(h.trail.usedIds + {modelEntry}, levelEntry, levelPut)
            || Effective(h.(model := model), c, h.level) == h.level
          else model == h.model)
    case SetLevel(level, entry, _, put) => Lands(h.trail.usedIds, entry, put) || Effective(h, c, level) == h.level
    case Other(_) => true
  }

  lemma AppendRecovers(s: State, id: Id, body: EntryBody, now: int, put: bool, c: Catalog)
    requires WellFormed(s)
    ensures var r := Append(s, id, body, now, put);
            && (r.Ok? <==> Lands(s.usedIds, id, put))
            && (r.Ok? ==>
                  && WellFormed(r.value)
                  && r.value.usedIds == s.usedIds + {id}
                  && RecoveredLevel(r.value.entries) ==
                     (if body.ThinkingLevelChange? && body.level in LEVELS then body.level
                      else RecoveredLevel(s.entries))
                  && TrailModel(r.value.entries, c) ==
                     (if body.ModelChange? then GetModel(c, body.provider, body.modelId) else TrailModel(s.entries, c)))
  {
    if Lands(s.usedIds, id, put) {
      var e := AppendAdds(s, id, body, now);
      EntryRecovers(s.entries, e, c);
    } else {
      AppendRefused(s, id, body, now, put);
    }
  }

  lemma AppendRefused(s: State, id: Id, body: EntryBody, now: int, put: bool)
    requires !Lands(s.usedIds, id, put)
    ensures Append(s, id, body, now, put).Err?
  {
  }

  lemma EntryRecovers(es: seq<Entry>, e: Entry, c: Catalog)
    ensures RecoveredLevel(es + [e]) ==
            if e.body.ThinkingLevelChange? && e.body.level in LEVELS then e.body.level else RecoveredLevel(es)
    ensures TrailModel(es + [e], c) ==
            if e.body.ModelChange? then GetModel(c, e.body.provider, e.body.modelId) else TrailModel(es, c)
  {
    assert (es + [e])[..|es|] == es;
  }

  lemma AppendAdds(s: State, id: Id, body: EntryBody, now: int) returns (e: Entry)
    requires WellFormed(s) && id !in s.usedIds
    ensures var r := Append(s, id, body, now, true);
            && r.Ok? && WellFormed(r.value)
            && r.value.usedIds == s.usedIds + {id}
            && r.value.entries == s.entries + [e] && e.body == body
  {
    var op := AppendEntry(id, body, MAIN, now);
    PreparedIsAccepted(s, op);
    e := Prepare(s, op).value.entry;
  }

  ghost predicate Good(h: Host, c: Catalog) {
    WellFormed(h.trail) && h.level in LEVELS && Agrees(h, c)
  }

  /** A level command leaves a host that agrees with its trail if and only if its entry
      landed or the level did not change. */
  lemma LevelKeptExactly(h: Host, c: Catalog, level: Level, entry: Id, now: int, put: bool)
    requires Coherent(c) && Good(h, c) && level in LEVELS
    ensures Good(ApplyLevel(h, c, level, entry, now, put), c)
       <==> Lands(h.trail.usedIds, entry, put) || Effective(h, c, level) == h.level
    ensures Agrees(ApplyLevel(h, c, level, entry, now, put), c) <==> Good(ApplyLevel(h, c, level, entry, now, put), c)
  {
    AppendRecovers(h.trail, entry, ThinkingLevelChange(Effective(h, c, level)), now, put, c);
  }

  lemma ModelKeptExactly(h: Host, c: Catalog, cmd: Command)
    requires Coherent(c) && Good(h, c) && cmd.SetModel?
    ensures Good(Execute(h, c, cmd), c) <==> Keeps(h, c, cmd)
    ensures Agrees(Execute(h, c, cmd), c) <==> Good(Execute(h, c, cmd), c)
  {
    var model := GetModel(c, cmd.provider, cmd.modelId);
    if model.Some? && cmd.provider in c.authed {
      var body := ModelChange(cmd.provider, cmd.modelId);
      AppendRecovers(h.trail, cmd.modelEntry, body, cmd.at, cmd.modelPut, c);
      if Lands(h.trail.usedIds, cmd.modelEntry, cmd.modelPut) {
        var t := Append(h.trail, cmd.modelEntry, body, cmd.at, cmd.modelPut).value;
        LevelKeptExactly(Host(t, model, h.level), c, h.level, cmd.levelEntry, cmd.at, cmd.levelPut);
      }
    }
  }

  /** A write adds to the trail at most one entry, with the body it was given. */
  lemma StepEntries(s: State, op: Op) returns (added: seq<Entry>)
    requires WellFormed(s)
    ensures WellFormed(Step(s, op)) && Step(s, op).entries == s.entries + added
    ensures added == [] || (op.AppendEntry? && |added| == 1 && added[0].body == op.body)
  {
    if Prepare(s, op).Ok? {
      PreparedIsAccepted(s, op);
      var m := Prepare(s, op).value;
      added := if m.EntryMutation? then [m.entry] else [];
      assert s.entries + [] == s.entries;
    } else {
      added := [];
      assert s.entries + [] == s.entries;
    }
  }

  lemma OtherAgrees(h: Host, c: Catalog, op: Op)
    requires Good(h, c) && Proper(Other(op))
    ensures Good(h.(trail := Step(h.trail, op)), c)
  {
    var added := StepEntries(h.trail, op);
    if added == [] {
      assert h.trail.entries + [] == h.trail.entries;
    } else {
      assert added == [added[0]];
    }
  }

  /** The refs are set before the trail entries are appended. From a host that agrees
      with its trail, a command leaves one that agrees if and only if it changes no ref
      whose entry does not land: a refused model entry only when the model stays, a
      refused level entry only when the level stays. */
  lemma KeptExactly(h: Host, c: Catalog, cmd: Command)
    requires Coherent(c) && Good(h, c) && Proper(cmd)
    ensures Agrees(Execute(h, c, cmd), c) <==> Keeps(h, c, cmd)
    ensures Good(Execute(h, c, cmd), c) <==> Keeps(h, c, cmd)
  {
    match cmd
    case SetModel(_, _, _, _, _, _, _) => ModelKeptExactly(h, c, cmd);
    case SetLevel(level, entry, now, put) => LevelKeptExactly(h, c, level, entry, now, put);
    case Other(op) => OtherAgrees(h, c, op);
  }

  /** A fresh thread starts on the first available model and writes it down. */
  function Created(c: Catalog, modelEntry: Id, levelEntry: Id, now: int): Host {
    var model := FirstAvailable(c);
    var t := if model.Some?
             then Append(INIT, modelEntry, ModelChange(model.value.provider, model.value.modelId), now, true)
             else Ok(INIT);
    var u := if t.Ok? then Append(t.value, levelEntry, ThinkingLevelChange("off"), now, true) else t;
    Host(if u.Ok? then u.value else INIT, model, "off")
  }

  lemma CreatedAgrees(c: Catalog, modelEntry: Id, levelEntry: Id, now: int)
    requires Coherent(c) && modelEntry != levelEntry
    ensures Good(Created(c, modelEntry, levelEntry, now), c)
  {
    var t := FirstModel(c, modelEntry, now);
    AppendRecovers(t, levelEntry, ThinkingLevelChange("off"), now, true, c);
  }

  /** The trail of a fresh thread once its model, if there is one, is written down. */
  lemma FirstModel(c: Catalog, modelEntry: Id, now: int) returns (t: State)
    ensures WellFormed(t) && t.usedIds <= {modelEntry} && RecoveredLevel(t.entries) == "off"
    ensures var model := FirstAvailable(c);
            if model.Some? then
              Append(INIT, modelEntry, ModelChange(model.value.provider, model.value.modelId), now, true) == Ok(t)
            else t == INIT
    ensures Coherent(c) ==> RecoveredModel(t.entries, c) == FirstAvailable(c)
  {
    InitWellFormed();
    var model := FirstAvailable(c);
    t := INIT;
    if model.Some? {
      assert c.available[0] in c.available;
      var body := ModelChange(model.value.provider, model.value.modelId);
      AppendRecovers(INIT, modelEntry, body, now, true, c);
      t := Append(INIT, modelEntry, body, now, true).value;
    }
  }

  function RunCommands(h: Host, c: Catalog, cmds: seq<Command>): Host {
    if cmds == [] then h else Execute(RunCommands(h, c, cmds[..|cmds| - 1]), c, cmds[|cmds| - 1])
  }

  ghost predicate AllProper(cmds: seq<Command>) {
    forall i :: 0 <= i < |cmds| ==> Proper(cmds[i])
  }

  ghost predicate AllKept(h: Host, c: Catalog, cmds: seq<Command>) {
    forall i :: 0 <= i < |cmds| ==> Keeps(RunCommands(h, c, cmds[..i]), c, cmds[i])
  }

  lemma AllKeptFront(h: Host, c: Catalog, cmds: seq<Command>)
    requires cmds != [] && AllKept(h, c, cmds)
    ensures AllKept(h, c, cmds[..|cmds| - 1])
  {
    var front := cmds[..|cmds| - 1];
    forall i | 0 <= i < |front| ensures Keeps(RunCommands(h, c, front[..i]), c, front[i]) {
      assert front[..i] == cmds[..i];
    }
  }

  lemma {:induction false} RunAgrees(h: Host, c: Catalog, cmds: seq<Command>)
    requires Coherent(c) && Good(h, c) && AllProper(cmds) && AllKept(h, c, cmds)
    ensures Good(RunCommands(h, c, cmds), c)
  {
    if cmds != [] {
      AllKeptFront(h, c, cmds);
      RunAgrees(h, c, cmds[..|cmds| - 1]);
      KeptExactly(RunCommands(h, c, cmds[..|cmds| - 1]), c, cmds[|cmds| - 1]);
    }
  }

  /** Restart transparency: after any run of commands on a fresh thread in which no ref
      changed without its entry, clamped, refused and no-op commands included, a new
      host over the trail recovers the model and the level the live host has; and the
      first command that breaks this is the first that changes a ref without its
      entry. */
  lemma RestartTransparent(c: Catalog, modelEntry: Id, levelEntry: Id, now: int, cmds: seq<Command>, next: Command)
    requires Coherent(c) && modelEntry != levelEntry
    requires AllProper(cmds) && AllKept(Created(c, modelEntry, levelEntry, now), c, cmds) && Proper(next)
    ensures var h := RunCommands(Created(c, modelEntry, levelEntry, now), c, cmds);
            && h.model == RecoveredModel(h.trail.entries, c) && h.level == RecoveredLevel(h.trail.entries)
            && (Agrees(Execute(h, c, next), c) <==> Keeps(h, c, next))
  {
    CreatedAgrees(c, modelEntry, levelEntry, now);
    RunAgrees(Created(c, modelEntry, levelEntry, now), c, cmds);
    KeptExactly(RunCommands(Created(c, modelEntry, levelEntry, now), c, cmds), c, next);
  }

  /** A catalog without models. */
  function NoModels(): Catalog {
    Catalog(map[], [], {}, (m: Model) => [], (m: Model, l: Level) => l)
  }

  /** The failing case is reached: a fresh thread whose first level entry the store
      refuses is live at a level a restart does not recover. */
  lemma RefusedLevelDiverges(modelEntry: Id, levelEntry: Id, entry: Id, now: int)
    requires modelEntry != levelEntry
    ensures var h := Created(NoModels(), modelEntry, levelEntry, now);
            var after := Execute(h, NoModels(), SetLevel("high", entry, now, false));
            && Coherent(NoModels()) && Good(h, NoModels())
            && after.level == "high" && RecoveredLevel(after.trail.entries) == "off"
            && !Agrees(after, NoModels())
  {
    var c := NoModels();
    CreatedAgrees(c, modelEntry, levelEntry, now);
    assert Effective(Created(c, modelEntry, levelEntry, now), c, "high") == "high";
    LevelKeptExactly(Created(c, modelEntry, levelEntry, now), c, "high", entry, now, false);
  }
}
