/** Conversation history in a session's memory (intent/session.go). */
module SessionHistory {
  import opened Wrappers
  import opened AgentSkills

  const HISTORY_RECORD_KEY := "intent:history"

  /** What is stored in a record: encoded messages or something that does not decode. */
  datatype Content = Messages(messages: seq<Message>) | Undecodable

  /** A stored record; the identifier 0 stands for none. */
  datatype Record = Record(id: nat, key: string, content: Content)

  /** The first record of a key. */
  function Find(records: seq<Record>, key: string): Option<Record> {
    if records == [] then None
    else if records[0].key == key then Some(records[0])
    else Find(records[1..], key)
  }

  /** The history found under the history key; none stored is an empty one. */
  function History(records: seq<Record>): Result<seq<Message>> {
    match Find(records, HISTORY_RECORD_KEY)
    case None => Ok([])
    case Some(r) => if r.content.Messages? then Ok(r.content.messages) else Err(Other("decode session history"))
  }

  /** A store after saving a record: the record of the same identifier is replaced, a record
      without identifier is added at the end. */
  function Stored(records: seq<Record>, r: Record, fresh_: nat): seq<Record> {
    if r.id == 0 then records + [r.(id := fresh_)] else Replaced(records, r)
  }

  function Replaced(records: seq<Record>, r: Record): seq<Record> {
    if records == [] then [r]
    else if records[0].id == r.id then [r] + records[1..]
    else [records[0]] + Replaced(records[1..], r)
  }

  /** Stored records have distinct identifiers, none of them 0. */
  predicate WellFormed(records: seq<Record>) {
    && (forall i :: 0 <= i < |records| ==> records[i].id != 0)
    && (forall i, j :: 0 <= i < j < |records| ==> records[i].id != records[j].id)
  }

  lemma {:induction false} FindAfterReplace(records: seq<Record>, key: string, r: Record)
    requires WellFormed(records) && Find(records, key).Some? && Find(records, key).value.id == r.id && r.key == key
    ensures Find(Replaced(records, r), key) == Some(r)
  {
    if records[0].key != key {
      FindIsThere(records[1..], key);
      assert records[0].id != r.id;
      FindAfterReplace(records[1..], key, r);
      assert ([records[0]] + Replaced(records[1..], r))[1..] == Replaced(records[1..], r);
    }
  }

  lemma {:induction false} FindIsThere(records: seq<Record>, key: string)
    requires Find(records, key).Some?
    ensures Find(records, key).value in records && Find(records, key).value.key == key
  {
    if records[0].key != key {
      FindIsThere(records[1..], key);
    }
  }

  lemma {:induction false} FindAfterAdd(records: seq<Record>, key: string, r: Record)
    requires Find(records, key) == None && r.key == key
    ensures Find(records + [r], key) == Some(r)
  {
    if records != [] {
      assert (records + [r])[1..] == records[1..] + [r];
      FindAfterAdd(records[1..], key, r);
    }
  }

  lemma {:induction false} OthersAfterReplace(records: seq<Record>, key: string, r: Record)
    requires WellFormed(records) && key != r.key && exists k: Record :: k in records && k.id == r.id && k.key == r.key
    ensures Find(Replaced(records, r), key) == Find(records, key)
  {
    if records[0].id == r.id {
      var k :| k in records && k.id == r.id && k.key == r.key;
      var i :| 0 <= i < |records| && records[i] == k;
      assert i == 0;
    } else {
      assert ([records[0]] + Replaced(records[1..], r))[1..] == Replaced(records[1..], r);
      if records[0].key != key {
        var k :| k in records && k.id == r.id && k.key == r.key;
        assert k in records[1..];
        OthersAfterReplace(records[1..], key, r);
      }
    }
  }

  lemma {:induction false} OthersAfterAdd(records: seq<Record>, key: string, r: Record)
    requires key != r.key
    ensures Find(records + [r], key) == Find(records, key)
  {
    if records != [] {
      assert (records + [r])[1..] == records[1..] + [r];
      OthersAfterAdd(records[1..], key, r);
    }
  }

  lemma {:induction false} ReplacedKeepsIds(records: seq<Record>, r: Record)
    requires exists k: Record :: k in records && k.id == r.id
    ensures |Replaced(records, r)| == |records|
    ensures forall i :: 0 <= i < |records| ==> Replaced(records, r)[i].id == records[i].id
  {
    if records[0].id != r.id {
      var k :| k in records && k.id == r.id;
      assert k in records[1..];
      ReplacedKeepsIds(records[1..], r);
    }
  }

  /** Whether a call reports an error, and whether a save takes effect nevertheless. */
  datatype Fault = Fault(reported: bool, effective: bool)

  /** The i-th of the faults to come; after the last one, calls succeed. */
  function FaultAt(faults: seq<Fault>, i: nat): Fault {
    if i < |faults| then faults[i] else Fault(false, true)
  }

  function Later(faults: seq<Fault>, n: nat): seq<Fault> {
    if n < |faults| then faults[n..] else []
  }

  /** A session's memory. Any call may fail; a failing save may still have taken effect. */
  class Memory {
    var records: seq<Record>
    var nextId: nat
    var faults: seq<Fault>

    ghost predicate Valid()
      reads this
    {
      && WellFormed(records)
      && nextId > 0
      && forall i :: 0 <= i < |records| ==> records[i].id < nextId
    }

    constructor (faults: seq<Fault>)
      ensures Valid() && records == [] && this.faults == faults
    {
      records, nextId, this.faults := [], 1, faults;
    }

    method NextFault() returns (f: Fault)
      modifies this`faults
      ensures f == FaultAt(old(faults), 0) && faults == Later(old(faults), 1)
    {
      if faults == [] {
        return Fault(false, true);
      }
      f := faults[0];
      faults := faults[1..];
    }

    method Search(key: string) returns (r: Result<Option<Record>>)
      modifies this`faults
      ensures r == if FaultAt(old(faults), 0).reported then Err(Other("search")) else Ok(Find(records, key))
      ensures faults == Later(old(faults), 1)
    {
      var f := NextFault();
      if f.reported {
        return Err(Other("search"));
      }
      return Ok(Find(records, key));
    }

    method Save(r: Record) returns (failure: Option<Error>)
      requires Valid() && (r.id != 0 ==> exists k: Record :: k in records && k.id == r.id)
      modifies this
      ensures Valid() && faults == Later(old(faults), 1)
      ensures var f := FaultAt(old(faults), 0);
              && failure == (if f.reported then Some(Other("save")) else None)
              && records == if f.reported && !f.effective then old(records) else Stored(old(records), r, old(nextId))
    {
      var f := NextFault();
      if f.effective || !f.reported {
        if r.id != 0 {
          ReplacedKeepsIds(records, r);
        }
        records, nextId := Stored(records, r, nextId), if r.id == 0 then nextId + 1 else nextId;
      }
      return if f.reported then Some(Other("save")) else None;
    }
  }

  /** What loading yields: a failing search's error, or the history. */
  function LoadedHistory(records: seq<Record>, fault: Fault): Result<seq<Message>> {
    if fault.reported then Err(Other("search")) else History(records)
  }

  method LoadHistory(m: Memory) returns (r: Result<seq<Message>>)
    modifies m`faults
    ensures r == LoadedHistory(m.records, FaultAt(old(m.faults), 0))
    ensures m.faults == Later(old(m.faults), 1)
  {
    var found := m.Search(HISTORY_RECORD_KEY);
    if found.Err? {
      return Err(found.error);
    }
    if found.value == None {
      return Ok([]);
    }
    var content := found.value.value.content;
    if content.Undecodable? {
      return Err(Other("decode session history"));
    }
    return Ok(content.messages);
  }

  /** Replaces the stored history; records of other keys stay as they are. It fails exactly if the
      search or the save does. */
  method SaveHistory(m: Memory, msgs: seq<Message>) returns (failure: Option<Error>)
    requires m.Valid()
    modifies m
    ensures m.Valid()
    ensures failure == None <==> !FaultAt(old(m.faults), 0).reported && !FaultAt(old(m.faults), 1).reported
    ensures failure == None ==> History(m.records) == Ok(msgs)
    ensures History(m.records) == Ok(msgs) || m.records == old(m.records)
    ensures forall key :: key != HISTORY_RECORD_KEY ==> Find(m.records, key) == old(Find(m.records, key))
  {
    var rec := Record(0, HISTORY_RECORD_KEY, Messages(msgs));
    var existing := m.Search(HISTORY_RECORD_KEY);
    if existing.Err? {
      return Some(existing.error);
    }
    if existing.value.Some? {
      rec := rec.(id := existing.value.value.id);
      FindIsThere(m.records, HISTORY_RECORD_KEY);
    }
    StoredIsFound(m.records, rec, m.nextId);
    assert FaultAt(m.faults, 0) == FaultAt(old(m.faults), 1);
    failure := m.Save(rec);
  }

  /** Saving under the identifier that the key's first record has, or under none if it has no
      record, is seen by the next search for the key and by no other search. */
  lemma StoredIsFound(records: seq<Record>, r: Record, fresh_: nat)
    requires WellFormed(records)
    requires match Find(records, r.key) { case None => r.id == 0 case Some(old_) => r.id == old_.id }
    ensures Find(Stored(records, r, fresh_), r.key) == Some(if r.id == 0 then r.(id := fresh_) else r)
    ensures forall key :: key != r.key ==> Find(Stored(records, r, fresh_), key) == Find(records, key)
  {
    if Find(records, r.key) == None {
      FindAfterAdd(records, r.key, r.(id := fresh_));
    } else {
      FindIsThere(records, r.key);
      FindAfterReplace(records, r.key, r);
    }
    forall key | key != r.key ensures Find(Stored(records, r, fresh_), key) == Find(records, key) {
      if Find(records, r.key) == None {
        OthersAfterAdd(records, key, r.(id := fresh_));
      } else {
        OthersAfterReplace(records, key, r);
      }
    }
  }

  /** No call of an append fails, the faults of which start at the i-th. */
  predicate AppendSucceeds(records: seq<Record>, faults: seq<Fault>, i: nat, msgs: seq<Message>) {
    msgs == [] ||
    (!FaultAt(faults, i).reported && History(records).Ok? && !FaultAt(faults, i + 1).reported && !FaultAt(faults, i + 2).reported)
  }

  /** Appends to the stored history. It fails exactly if a call does or the history does not decode;
      then the history is as it was, or the append has happened. */
  method AppendHistory(m: Memory, msgs: seq<Message>) returns (failure: Option<Error>)
    requires m.Valid()
    modifies m
    ensures m.Valid()
    ensures failure == None <==> AppendSucceeds(old(m.records), old(m.faults), 0, msgs)
    ensures failure == None && msgs != [] ==>
              old(History(m.records)).Ok? && History(m.records) == Ok(old(History(m.records)).value + msgs)
    ensures m.records == old(m.records) ||
            (old(History(m.records)).Ok? && History(m.records) == Ok(old(History(m.records)).value + msgs))
    ensures forall key :: key != HISTORY_RECORD_KEY ==> Find(m.records, key) == old(Find(m.records, key))
  {
    if |msgs| == 0 {
      return None;
    }
    var history := LoadHistory(m);
    if history.Err? {
      return Some(history.error);
    }
    assert FaultAt(m.faults, 0) == FaultAt(old(m.faults), 1) && FaultAt(m.faults, 1) == FaultAt(old(m.faults), 2);
    failure := SaveHistory(m, history.value + msgs);
  }
}
