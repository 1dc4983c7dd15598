/** The vocabulary of a session trail: entries, lane records, mutations and log
    items. JSON payloads the session layer never interprets are kept as text. */
module SessionTypes {
  import opened Wrappers

  type Id = string

  /** The code of a `SessionError`; its message text is not modelled. */
  datatype SessionError =
    | InvalidEntry | InvalidQuery | InvalidLane | InvalidPayload
    | AlreadyExists | NotFound | InvalidForkTarget | StorageFault

  datatype EntryType =
    | MessageType | ModelChangeType | ThinkingLevelChangeType | ActiveToolsChangeType
    | CompactionType | BranchSummaryType | CustomType

  datatype EntryBody =
    | Message(message: string)
    | ModelChange(provider: string, modelId: string)
    | ThinkingLevelChange(level: string)
    | ActiveToolsChange(toolNames: seq<string>)
    | Compaction(summary: string)
    | BranchSummary(fromId: Id, branchSummary: string)
    | Custom(customType: string, data: string)
  {
    function Type(): EntryType {
      match this
      case Message(_) => MessageType
      case ModelChange(_, _) => ModelChangeType
      case ThinkingLevelChange(_) => ThinkingLevelChangeType
      case ActiveToolsChange(_) => ActiveToolsChangeType
      case Compaction(_) => CompactionType
      case BranchSummary(_, _) => BranchSummaryType
      case Custom(_, _) => CustomType
    }
  }

  datatype Entry = Entry(id: Id, parentId: Option<Id>, seqNo: int, timestamp: int, body: EntryBody)

  datatype Usage = Usage(input: int, cacheRead: int, cacheWrite: int, totalTokens: int, cost: real)

  datatype RecordBody =
    | OperationStarted(intentKind: string)
    | OperationFinished(finishedRunId: Id, outcome: string)
    | UsageRecord(usage: Usage)
    | OtherRecord(recordType: string, payload: string)

  datatype LaneRecord = LaneRecord(id: Id, lane: string, seqNo: int, timestamp: int, body: RecordBody)

  datatype Mutation =
    | EntryMutation(lane: Option<string>, entry: Entry)
    | RecordMutation(record: LaneRecord)
    | LaneMutation(laneSeq: int, movedLane: string, leafId: Option<Id>)
    | NameMutation(nameSeq: int, name: string)
    | LabelMutation(labelSeq: int, targetId: Id, tag: Option<string>)

  /** A log item: a mutation as `getLog` reports it. An entry's lane is dropped. */
  datatype LogItem =
    | EntryItem(entry: Entry, seqNo: int)
    | RecordItem(record: LaneRecord, seqNo: int)
    | LaneItem(lane: string, leafId: Option<Id>, seqNo: int)
    | NameItem(name: string, seqNo: int)
    | LabelItem(targetId: Id, tag: Option<string>, seqNo: int)

  datatype Stats = Stats(
    messageCount: int,
    cachedTokens: int,
    uncachedTokens: int,
    totalTokens: int,
    costTotal: real)

  function SeqOf(m: Mutation): int {
    match m
    case EntryMutation(_, e) => e.seqNo
    case RecordMutation(r) => r.seqNo
    case LaneMutation(n, _, _) => n
    case NameMutation(n, _) => n
    case LabelMutation(n, _, _) => n
  }

  function ItemOf(m: Mutation): LogItem {
    match m
    case EntryMutation(_, e) => EntryItem(e, e.seqNo)
    case RecordMutation(r) => RecordItem(r, r.seqNo)
    case LaneMutation(n, lane, leaf) => LaneItem(lane, leaf, n)
    case NameMutation(n, name) => NameItem(name, n)
    case LabelMutation(n, target, tag) => LabelItem(target, tag, n)
  }
}
