/**
  The role-tag adapter of the chat service: a chat message is flattened into a
  `{type, content}` record, and a record is turned back into one of the three
  message kinds by exact match on its type tag.
*/
module ChatAdapter {
  import opened Wrappers

  /** The three message kinds the chat endpoint accepts. */
  datatype Msg = Human(content: string) | AI(content: string) | System(content: string)

  /** The transport record `{"type": tag, "content": content}`. */
  datatype Record = Record(tag: string, content: string)

  /** Raised when a record's type tag names none of the three kinds. */
  datatype AdapterError = UnknownMessageType(tag: string)

  const HumanTag: string := "human"
  const AITag: string := "ai"
  const SystemTag: string := "system"

  /** The tags `dict_to_message` recognises; matching is exact string equality. */
  predicate IsKnownTag(tag: string) {
    tag == HumanTag || tag == AITag || tag == SystemTag
  }

  /**
    The `.type` attribute of each message class.  That the chat library's
    classes report exactly these three strings is an assumption of the model.
  */
  function TypeTag(m: Msg): (t: string)
    ensures IsKnownTag(t)
    ensures t == HumanTag <==> m.Human?
    ensures t == AITag <==> m.AI?
    ensures t == SystemTag <==> m.System?
  {
    match m
    case Human(_) => HumanTag
    case AI(_) => AITag
    case System(_) => SystemTag
  }

  /** `message_to_dict`: the record carries the message's tag and its content unchanged. */
  function MessageToDict(m: Msg): (r: Record)
    ensures r.tag == TypeTag(m) && IsKnownTag(r.tag)
    ensures r.content == m.content
  {
    Record(TypeTag(m), m.content)
  }

  /**
    `dict_to_message`: a known tag yields the matching kind with the content
    carried through; any other tag is an error, never a default kind.
  */
  function DictToMessage(d: Record): (r: Result<Msg, AdapterError>)
    ensures r.Success? <==> IsKnownTag(d.tag)
    ensures r.Success? ==> r.value.content == d.content && TypeTag(r.value) == d.tag
    ensures r.Failure? ==> r.error == UnknownMessageType(d.tag)
  {
    if d.tag == HumanTag then Success(Human(d.content))
    else if d.tag == AITag then Success(AI(d.content))
    else if d.tag == SystemTag then Success(System(d.content))
    else Failure(UnknownMessageType(d.tag))
  }

  /** Flattening then rebuilding a message gives back the same kind and content. */
  lemma MessageRoundTrip(m: Msg)
    ensures DictToMessage(MessageToDict(m)) == Success(m)
  {
    match m
    case Human(_) =>
    case AI(_) =>
    case System(_) =>
  }

  /** Rebuilding a record that is accepted, then flattening it, gives back the same record. */
  lemma RecordRoundTrip(d: Record)
    requires DictToMessage(d).Success?
    ensures MessageToDict(DictToMessage(d).value) == d
  {
  }

  /** Conversion of a record is decided by its tag alone, and case matters. */
  lemma TagIsCaseSensitive(content: string)
    ensures DictToMessage(Record("Human", content)).Failure?
    ensures DictToMessage(Record("HUMAN", content)).Failure?
    ensures DictToMessage(Record("AI", content)).Failure?
    ensures DictToMessage(Record("System", content)).Failure?
    ensures DictToMessage(Record("bot", content)) == Failure(UnknownMessageType("bot"))
    ensures DictToMessage(Record("user", content)) == Failure(UnknownMessageType("user"))
  {
  }

  /** The records of a conversation: `message_to_dict` applied to every message, in order. */
  function ToRecords(msgs: seq<Msg>): (ds: seq<Record>)
    ensures |ds| == |msgs|
    ensures forall i :: 0 <= i < |msgs| ==> ds[i] == MessageToDict(msgs[i])
  {
    if |msgs| == 0 then [] else [MessageToDict(msgs[0])] + ToRecords(msgs[1..])
  }

  /** Index of the first record whose tag is unknown, or |ds| when every tag is known. */
  function FirstUnknown(ds: seq<Record>): (k: nat)
    ensures k <= |ds|
    ensures forall i :: 0 <= i < k ==> IsKnownTag(ds[i].tag)
    ensures k < |ds| ==> !IsKnownTag(ds[k].tag)
  {
    if |ds| == 0 then 0
    else if !IsKnownTag(ds[0].tag) then 0
    else 1 + FirstUnknown(ds[1..])
  }

  /**
    `dict_to_message` applied to every record, in order, as the list
    comprehension does: the first record with an unknown tag aborts the whole
    conversion with that record's error; otherwise element i is record i's message.
  */
  function FromRecords(ds: seq<Record>): (r: Result<seq<Msg>, AdapterError>)
    ensures r.Success? <==> forall i :: 0 <= i < |ds| ==> IsKnownTag(ds[i].tag)
    ensures r.Success? ==> |r.value| == |ds|
    ensures r.Success? ==> forall i :: 0 <= i < |ds| ==> DictToMessage(ds[i]) == Success(r.value[i])
    ensures r.Failure? ==> FirstUnknown(ds) < |ds| && r.error == UnknownMessageType(ds[FirstUnknown(ds)].tag)
  {
    if |ds| == 0 then Success([])
    else
      match DictToMessage(ds[0])
      case Failure(e) => Failure(e)
      case Success(m) =>
        match FromRecords(ds[1..])
        case Failure(e) => Failure(e)
        case Success(rest) => Success([m] + rest)
  }

  /** Converting records and flattening the result gives back the records. */
  lemma {:induction false} RecordsRoundTrip(ds: seq<Record>)
    requires FromRecords(ds).Success?
    ensures ToRecords(FromRecords(ds).value) == ds
  {
    var ms := FromRecords(ds).value;
    forall i | 0 <= i < |ds| ensures ToRecords(ms)[i] == ds[i] {
      RecordRoundTrip(ds[i]);
    }
    assert ToRecords(ms) == ds;
  }

  /**
    `process_input_chat`: every message is flattened and rebuilt.  Because every
    message is one of the three kinds, the conversion never fails and returns
    the same kinds and contents, in order (a message here is only its kind and
    content; other attributes a message may carry are not kept by the source).
  */
  function ProcessInputChat(msgs: seq<Msg>): (r: Result<seq<Msg>, AdapterError>)
    ensures r == Success(msgs)
  {
    ConversationRoundTrip(msgs);
    FromRecords(ToRecords(msgs))
  }

  /** Flattening a conversation and rebuilding it gives back the conversation. */
  lemma {:induction false} ConversationRoundTrip(msgs: seq<Msg>)
    ensures FromRecords(ToRecords(msgs)) == Success(msgs)
  {
    var ds := ToRecords(msgs);
    forall i | 0 <= i < |ds| ensures IsKnownTag(ds[i].tag) {
    }
    var r := FromRecords(ds);
    forall i | 0 <= i < |msgs| ensures r.value[i] == msgs[i] {
      MessageRoundTrip(msgs[i]);
    }
    assert r.value == msgs;
  }
}
