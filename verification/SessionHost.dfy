/** The configuration side of the session host: its two refs over the trail it owns. */
module SessionHostClass {
  import opened Wrappers
  import opened SessionTypes
  import opened Trail
  import opened DoSession
  import opened HostConfig
  import E = HostEffects

  /** What opening a host over a trail gives: a written trail is recovered, an empty
      one gets its first entries. */
  function Opened(s: State, c: Catalog, modelEntry: Id, levelEntry: Id, now: int): Host {
    var model, level := RecoveredModel(s.entries, c), RecoveredLevel(s.entries);
    if s.entries != [] then Host(s, model, level)
    else
      var t := if model.Some?
               then WithEntry(s, modelEntry, ModelChange(model.value.provider, model.value.modelId), now)
               else s;
      Host(WithEntry(t, levelEntry, ThinkingLevelChange(level), now), model, level)
  }

  function WithEntry(s: State, id: Id, body: EntryBody, now: int): State {
    match Append(s, id, body, now, true) case Ok(t) => t case Err(_) => s
  }

  /** Opening a host over an empty trail is creating it; over the trail of a host that
      agrees with it, it gives that host back. */
  lemma ReopenGivesHostBack(h: Host, c: Catalog, modelEntry: Id, levelEntry: Id, now: int)
    requires Good(h, c) && h.trail.entries != []
    ensures Opened(h.trail, c, modelEntry, levelEntry, now) == h
    ensures modelEntry != levelEntry ==>
              Opened(INIT, c, modelEntry, levelEntry, now) == Created(c, modelEntry, levelEntry, now)
  {
    if modelEntry != levelEntry {
      var t := FirstModel(c, modelEntry, now);
      AppendRecovers(t, levelEntry, ThinkingLevelChange("off"), now, true, c);
    }
  }

  datatype HostError = UnknownModel | NoAuth | TrailRefused(error: SessionError)

  class SessionHost {
    const trail: DoSessionStorage
    var modelRef: Option<Model>
    var thinkingLevelRef: Level

    ghost predicate Valid()
      reads this, trail, trail.kv, trail.state
    {
      trail.Valid()
    }

    function View(): Host
      reads this, trail.state
    {
      Host(trail.state.View(), modelRef, thinkingLevelRef)
    }

    constructor (trail: DoSessionStorage, model: Option<Model>, level: Level)
      requires trail.Valid()
      ensures this.trail == trail && modelRef == model && thinkingLevelRef == level
    {
      this.trail, modelRef, thinkingLevelRef := trail, model, level;
    }

    static method Open(trail: DoSessionStorage, c: Catalog, modelEntry: Id, levelEntry: Id, now: int)
      returns (host: SessionHost)
      requires trail.Valid()
      modifies trail, trail.kv, trail.state
      ensures fresh(host) && host.trail == trail && host.Valid()
      ensures host.View() == Opened(old(trail.state.View()), c, modelEntry, levelEntry, now)
      ensures old(trail.state.entries) != [] ==> trail.state.View() == old(trail.state.View())
    {
      var model, level := Recover(trail.state.entries, c);
      host := new SessionHost(trail, model, level);
      if trail.state.entries == [] {
        if model.Some? {
          var _ := trail.AppendEntry(modelEntry, ModelChange(model.value.provider, model.value.modelId), MAIN, now);
        }
        var _ := trail.AppendEntry(levelEntry, ThinkingLevelChange(level), MAIN, now);
      }
    }

    /** Append to the trail. The store refuses the write when `put` is false, after the
        storage has validated it. */
    method AppendToTrail(id: Id, body: EntryBody, now: int, put: bool) returns (r: Result<(), SessionError>)
      requires Valid()
      modifies trail, trail.kv, trail.state
      ensures Valid()
      ensures match Append(old(trail.state.View()), id, body, now, put)
              case Ok(t) => r == Ok(()) && trail.state.View() == t
              case Err(e) => r == Err(e) && trail.state.View() == old(trail.state.View())
    {
      if !put {
        // The main lane always exists.
        var _ :- trail.state.ValidateUnusedId(id);
        return Err(StorageFault);
      }
      var _ :- trail.AppendEntry(id, body, MAIN, now);
      return Ok(());
    }

    method ApplyThinkingLevel(c: Catalog, level: Level, entry: Id, now: int, put: bool)
      returns (r: Result<Level, HostError>)
      requires Valid()
      modifies this, trail, trail.kv, trail.state
      ensures Valid()
      ensures View() == ApplyLevel(old(View()), c, level, entry, now, put)
      ensures E.LevelEffect(old(View()), View(), c, level, entry, now, put)
      ensures r.Ok? <==> thinkingLevelRef == old(thinkingLevelRef) || (put && entry !in old(trail.state.usedIds))
      ensures r.Ok? ==> r.value == thinkingLevelRef
    {
      E.LevelDoes(View(), c, level, entry, now, put);
      var effective := level;
      if modelRef.Some? && level !in c.supported(modelRef.value) {
        effective := c.clamp(modelRef.value, level);
      }
      if effective == thinkingLevelRef {
        return Ok(effective);
      }
      thinkingLevelRef := effective;
      var appended := AppendToTrail(entry, ThinkingLevelChange(effective), now, put);
      if appended.Err? {
        return Err(TrailRefused(appended.error));
      }
      return Ok(effective);
    }

    method ApplyModel(c: Catalog, provider: string, modelId: string, modelEntry: Id, levelEntry: Id, now: int,
                      modelPut: bool, levelPut: bool) returns (r: Result<Model, HostError>)
      requires Valid()
      modifies this, trail, trail.kv, trail.state
      ensures Valid()
      ensures View() == HostConfig.ApplyModel(old(View()), c, provider, modelId, modelEntry, levelEntry, now,
                                              modelPut, levelPut)
      ensures E.ModelEffect(old(View()), View(), c, provider, modelId, modelEntry, levelEntry, now, modelPut, levelPut)
      ensures r.Ok? ==> E.Allowed(c, provider, modelId) && modelRef == Some(r.value)
      ensures Model(provider, modelId) !in c.models ==> r == Err(UnknownModel)
      ensures Model(provider, modelId) in c.models && provider !in c.authed ==> r == Err(NoAuth)
    {
      E.ModelDoes(View(), c, provider, modelId, modelEntry, levelEntry, now, modelPut, levelPut);
      var model :- CheckModel(c, provider, modelId);
      modelRef := Some(model);
      var appended := AppendToTrail(modelEntry, ModelChange(provider, modelId), now, modelPut);
      if appended.Err? {
        return Err(TrailRefused(appended.error));
      }
      var leveled := ApplyThinkingLevel(c, thinkingLevelRef, levelEntry, now, levelPut);
      if leveled.Err? {
        return Err(leveled.error);
      }
      return Ok(model);
    }

    static method CheckModel(c: Catalog, provider: string, modelId: string) returns (r: Result<Model, HostError>)
      ensures r == match GetModel(c, provider, modelId)
                   case None => Err(UnknownModel)
                   case Some(model) => if provider in c.authed then Ok(model) else Err(NoAuth)
    {
      var model := GetModel(c, provider, modelId);
      if model.None? {
        return Err(UnknownModel);
      }
      if provider !in c.authed {
        return Err(NoAuth);
      }
      return Ok(model.value);
    }
  }
}
