/** What the configuration commands leave in the refs and the trail, and what a new host
    recovers, said of those. */
module HostEffects {
  import opened Wrappers
  import opened SessionTypes
  import opened Trail
  import opened StorageOps
  import opened CallEffects
  import opened HostConfig

  // -------------------------------------------------------------- recovery

  predicate NamesModel(e: Entry) {
    e.body.ModelChange?
  }

  predicate NamesLevel(e: Entry) {
    e.body.ThinkingLevelChange? && e.body.level in LEVELS
  }

  ghost predicate LastThat(es: seq<Entry>, k: nat, names: Entry -> bool) {
    k < |es| && names(es[k]) && forall j :: k < j < |es| ==> !names(es[j])
  }

  ghost predicate NoneThat(es: seq<Entry>, names: Entry -> bool) {
    forall j :: 0 <= j < |es| ==> !names(es[j])
  }

  /** Where no entry of the trail decides, the first model available does. */
  ghost predicate IsFirst(model: Option<Model>, c: Catalog) {
    if |c.available| > 0 then model == Some(c.available[0]) else model == None
  }

  ghost predicate IsNamed(model: Option<Model>, body: EntryBody, c: Catalog)
    requires body.ModelChange?
  {
    var named := Model(body.provider, body.modelId);
    if named in c.models then model == Some(c.models[named]) else IsFirst(model, c)
  }

  lemma {:induction false} LastModel(es: seq<Entry>, k: nat)
    requires LastThat(es, k, NamesModel)
    ensures LastModelChange(es) == Some(es[k].body)
  {
    if k < |es| - 1 {
      assert LastThat(es[..|es| - 1], k, NamesModel);
      LastModel(es[..|es| - 1], k);
    }
  }

  lemma {:induction false} NoModel(es: seq<Entry>)
    requires NoneThat(es, NamesModel)
    ensures LastModelChange(es) == None
  {
    if es != [] {
      assert NoneThat(es[..|es| - 1], NamesModel);
      assert !NamesModel(es[|es| - 1]);
      NoModel(es[..|es| - 1]);
    }
  }

  lemma {:induction false} LastLevel(es: seq<Entry>, k: nat)
    requires LastThat(es, k, NamesLevel)
    ensures LastLevelChange(es) == Some(es[k].body.level)
  {
    if k < |es| - 1 {
      assert LastThat(es[..|es| - 1], k, NamesLevel);
      assert !NamesLevel(es[|es| - 1]);
      LastLevel(es[..|es| - 1], k);
    }
  }

  lemma {:induction false} NoLevel(es: seq<Entry>)
    requires NoneThat(es, NamesLevel)
    ensures LastLevelChange(es) == None
  {
    if es != [] {
      assert NoneThat(es[..|es| - 1], NamesLevel);
      assert !NamesLevel(es[|es| - 1]);
      NoLevel(es[..|es| - 1]);
    }
  }

  /** A new host takes the model of the latest model entry, or the first one available
      when there is no such entry or the catalog no longer has it; and the level of the
      latest entry that names a level there is, or "off". */
  lemma RecoversExactly(es: seq<Entry>, c: Catalog)
    ensures forall k: nat :: LastThat(es, k, NamesModel) ==> IsNamed(RecoveredModel(es, c), es[k].body, c)
    ensures NoneThat(es, NamesModel) ==> IsFirst(RecoveredModel(es, c), c)
    ensures forall k: nat :: LastThat(es, k, NamesLevel) ==> RecoveredLevel(es) == es[k].body.level
    ensures NoneThat(es, NamesLevel) ==> RecoveredLevel(es) == "off"
  {
    forall k: nat | LastThat(es, k, NamesModel) ensures IsNamed(RecoveredModel(es, c), es[k].body, c) {
      LastModel(es, k);
    }
    forall k: nat | LastThat(es, k, NamesLevel) ensures RecoveredLevel(es) == es[k].body.level {
      LastLevel(es, k);
    }
    if NoneThat(es, NamesModel) {
      NoModel(es);
    }
    if NoneThat(es, NamesLevel) {
      NoLevel(es);
    }
  }

  // -------------------------------------------------------------- commands

  /** The trail gained one entry on its main lane, if the store took it. */
  ghost predicate Wrote(s: State, t: State, id: Id, body: EntryBody, now: int, put: bool)
    requires MAIN in s.lanes
  {
    if put && id !in s.usedIds
    then EntryAppended(s, t, MAIN, Entry(id, s.lanes[MAIN], s.sequence + 1, now, body))
    else t == s
  }

  lemma AppendWrites(s: State, id: Id, body: EntryBody, now: int, put: bool)
    requires WellFormed(s)
    ensures var r := Append(s, id, body, now, put);
            && (r.Ok? <==> put && id !in s.usedIds)
            && Wrote(s, if r.Ok? then r.value else s, id, body, now, put)
            && (r.Ok? ==> WellFormed(r.value))
  {
    var op := Op.AppendEntry(id, body, MAIN, now);
    AppendEntryEffect(s, id, body, MAIN, now);
    if Prepare(s, op).Ok? {
      PreparedIsAccepted(s, op);
    }
  }

  /** The level asked for is in force when the model supports it or there is no model;
      otherwise what it is clamped to. A level already in force writes nothing; any other
      is in force whether or not the store takes its entry. */
  ghost predicate LevelEffect(h: Host, g: Host, c: Catalog, level: Level, entry: Id, now: int, put: bool)
    requires MAIN in h.trail.lanes
  {
    && g.model == h.model
    && (h.model.None? ==> g.level == level)
    && (h.model.Some? && level in c.supported(h.model.value) ==> g.level == level)
    && (h.model.Some? && level !in c.supported(h.model.value) ==> g.level == c.clamp(h.model.value, level))
    && (g.level == h.level ==> g.trail == h.trail)
    && (g.level != h.level ==> Wrote(h.trail, g.trail, entry, ThinkingLevelChange(g.level), now, put))
  }

  lemma LevelDoes(h: Host, c: Catalog, level: Level, entry: Id, now: int, put: bool)
    requires WellFormed(h.trail)
    ensures LevelEffect(h, ApplyLevel(h, c, level, entry, now, put), c, level, entry, now, put)
  {
    AppendWrites(h.trail, entry, ThinkingLevelChange(Effective(h, c, level)), now, put);
  }

  ghost predicate Allowed(c: Catalog, provider: string, modelId: string) {
    Model(provider, modelId) in c.models && provider in c.authed
  }

  /** A model the catalog does not have, or that is not authorised, changes nothing. Any
      other is in force at once; when the store takes its entry, the level in force is
      applied again to it. */
  ghost predicate ModelEffect(h: Host, g: Host, c: Catalog, provider: string, modelId: string, modelEntry: Id,
                              levelEntry: Id, now: int, modelPut: bool, levelPut: bool)
    requires MAIN in h.trail.lanes
  {
    if !Allowed(c, provider, modelId) then g == h
    else
      exists t: State ::
        var mid := Host(t, Some(c.models[Model(provider, modelId)]), h.level);
        && MAIN in t.lanes
        && Wrote(h.trail, t, modelEntry, ModelChange(provider, modelId), now, modelPut)
        && if modelPut && modelEntry !in h.trail.usedIds
           then LevelEffect(mid, g, c, h.level, levelEntry, now, levelPut)
           else g == mid
  }

  lemma ModelDoes(h: Host, c: Catalog, provider: string, modelId: string, modelEntry: Id, levelEntry: Id, now: int,
                  modelPut: bool, levelPut: bool)
    requires WellFormed(h.trail)
    ensures ModelEffect(h, ApplyModel(h, c, provider, modelId, modelEntry, levelEntry, now, modelPut, levelPut), c,
                        provider, modelId, modelEntry, levelEntry, now, modelPut, levelPut)
  {
    if Allowed(c, provider, modelId) {
      var body := ModelChange(provider, modelId);
      var model := c.models[Model(provider, modelId)];
      AppendWrites(h.trail, modelEntry, body, now, modelPut);
      var r := Append(h.trail, modelEntry, body, now, modelPut);
      var t := if r.Ok? then r.value else h.trail;
      assert Wrote(h.trail, t, modelEntry, body, now, modelPut) && MAIN in t.lanes;
      if r.Ok? {
        LevelDoes(Host(t, Some(model), h.level), c, h.level, levelEntry, now, levelPut);
      }
    }
  }

  // ----------------------------------------------------------- fresh threads

  /** The entries of a new thread: its model, when there is one, and its level. */
  ghost predicate StartsOn(es: seq<Entry>, model: Option<Model>) {
    match model
    case None => |es| == 1 && es[0].body == ThinkingLevelChange("off") && es[0].parentId == None
    case Some(m) =>
      && |es| == 2
      && es[0].body == ModelChange(m.provider, m.modelId) && es[0].parentId == None
      && es[1].body == ThinkingLevelChange("off") && es[1].parentId == Some(es[0].id)
  }

  /** A fresh thread is live on the first model available, thinking off, and its trail
      says so. */
  lemma CreatedStarts(c: Catalog, modelEntry: Id, levelEntry: Id, now: int)
    requires modelEntry != levelEntry
    ensures var h := Created(c, modelEntry, levelEntry, now);
            && IsFirst(h.model, c) && h.level == "off"
            && StartsOn(h.trail.entries, h.model)
  {
    InitWellFormed();
    var model, off := FirstAvailable(c), ThinkingLevelChange("off");
    if model.Some? {
      var body := ModelChange(model.value.provider, model.value.modelId);
      AppendWrites(INIT, modelEntry, body, now, true);
      AppendWrites(Append(INIT, modelEntry, body, now, true).value, levelEntry, off, now, true);
    } else {
      AppendWrites(INIT, levelEntry, off, now, true);
    }
  }
}
