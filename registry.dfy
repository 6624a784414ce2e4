/**
 * The feeder registry: the tool functions `register_feeder`,
 * `get_registered_feeders`, `get_feeder_health` and `get_feeder_alerts` over
 * the process-wide `_memory` dict.
 *
 * Each operation is first given as a function of the store contents (its
 * specification); the store object below holds `_memory` and implements the
 * two operations that the program writes step by step.
 */
module Registry {
  import opened JsonValues
  import opened Responses
  import opened Feeders
  import opened StoreKeys

  /** The contents of `_memory`. */
  type Memory = map<string, Json>

  /**
   * `_memory.get(k)`: an absent key reads as None, like a stored null. The
   * same lookup on a dict value is `Feeders.GetOrNull`.
   */
  function PyGet(m: Memory, k: string): Json
  {
    if k in m then m[k] else JNull
  }

  function AlreadyExists(id: string): string
  {
    "Feeder ID '" + id + "' already exists."
  }

  function NotFound(id: string): string
  {
    "Feeder ID '" + id + "' not found."
  }

  const HealthyStatus: string := "Operational and healthy."

  /** The feeder `register_feeder` builds from its arguments. */
  function NewFeeder(id: string, name: string, location: string, configuration: Json): Feeder
  {
    Feeder(JString(id), JString(name), JString(location), configuration)
  }

  // ---------------------------------------------------------------------------
  // register_feeder

  /**
   * `register_feeder` as a function of the store: the response and the store
   * afterwards. The record is written before the index is read, so when the
   * index holds something other than a list or null the record stays written
   * and the `append` raises. Its properties are the lemmas below.
   */
  function Register(m: Memory, id: string, name: string, location: string, configuration: Json): (Response, Memory)
  {
    var key := FeederKey(id);
    if key in m then (Error(AlreadyExists(id)), m)
    else
      var record := ToDict(NewFeeder(id, name, location, configuration));
      var written := m[key := record];
      var index := PyGet(written, AllFeedersKey);
      var ids := if index.JNull? then JArray([]) else index;
      if ids.JArray? then (Success(record), written[AllFeedersKey := JArray(ids.items + [JString(id)])])
      else (Raised(AttributeError), written)
  }

  /** An id whose record key already exists is rejected and the store is left as it was. */
  lemma RegisterRejectsDuplicate(m: Memory, id: string, name: string, location: string, configuration: Json)
    requires FeederKey(id) in m
    ensures Register(m, id, name, location, configuration) == (Error(AlreadyExists(id)), m)
  {
  }

  /**
   * A new id gets the record `to_dict` writes. When the index is absent, null
   * or a list, the id is appended to it (whether or not the list already
   * holds it) and the record is the report; otherwise `append` raises
   * AttributeError after the record was written and the index stays as it was.
   */
  lemma RegisterNewFeeder(m: Memory, id: string, name: string, location: string, configuration: Json)
    requires FeederKey(id) !in m
    ensures var (r, m') := Register(m, id, name, location, configuration);
      var record, index := ToDict(NewFeeder(id, name, location, configuration)), PyGet(m, AllFeedersKey);
      && FeederKey(id) in m' && m'[FeederKey(id)] == record
      && (r.Success? <==> index.JNull? || index.JArray?)
      && (r.Success? ==>
            && r.report == record
            && AllFeedersKey in m'
            && m'[AllFeedersKey] == JArray((if index.JNull? then [] else index.items) + [JString(id)]))
      && (!r.Success? ==> r == Raised(AttributeError) && PyGet(m', AllFeedersKey) == index)
  {
    KeyFamiliesDisjoint(id, id);
  }

  /** Registration touches no key besides the feeder's record key and the index key. */
  lemma RegisterFrame(m: Memory, id: string, name: string, location: string, configuration: Json, k: string)
    requires k != FeederKey(id) && k != AllFeedersKey
    ensures var m' := Register(m, id, name, location, configuration).1;
      (k in m' <==> k in m) && (k in m ==> m'[k] == m[k])
  {
  }

  /** In particular no alert list, of this feeder or any other, is changed. */
  lemma RegisterKeepsAlerts(m: Memory, id: string, name: string, location: string, configuration: Json, other: string)
    ensures PyGet(Register(m, id, name, location, configuration).1, AlertsKey(other)) == PyGet(m, AlertsKey(other))
  {
    KeyFamiliesDisjoint(id, other);
    KeyFamiliesDisjoint(other, other);
    RegisterFrame(m, id, name, location, configuration, AlertsKey(other));
  }

  /**
   * The index is not deduplicated: an id the index already holds but whose
   * record is missing is appended once more when it is registered.
   */
  lemma DanglingIdIndexedAgain(m: Memory, id: string, name: string, location: string, configuration: Json)
    requires FeederKey(id) !in m
    requires PyGet(m, AllFeedersKey).JArray? && JString(id) in PyGet(m, AllFeedersKey).items
    ensures var (r, m') := Register(m, id, name, location, configuration);
      && r.Success?
      && multiset(m'[AllFeedersKey].items)[JString(id)] == multiset(PyGet(m, AllFeedersKey).items)[JString(id)] + 1 >= 2
  {
    RegisterNewFeeder(m, id, name, location, configuration);
    var items := PyGet(m, AllFeedersKey).items;
    assert multiset(items + [JString(id)]) == multiset(items) + multiset{JString(id)};
  }

  // ---------------------------------------------------------------------------
  // get_registered_feeders

  /** What one turn of the `for` loop over the index does. */
  datatype Contribution =
    | Skipped               // the record is missing or falsy
    | Listed(record: Json)  // `Feeder.from_dict(data).to_dict()` is appended
    | Failed(error: PyError) // `from_dict` raises and the loop is left

  /**
   * The turn for one index entry: its key is `f"feeder:{entry}"`, so an entry
   * that is not a string is formatted with `str()` first.
   */
  function EntryContribution(m: Memory, entry: Json): Contribution
  {
    var data := PyGet(m, FeederKey(PyStr(entry)));
    if !Truthy(data) then Skipped
    else
      match FromDict(data)
      case Err(e) => Failed(e)
      case Ok(f) => Listed(ToDict(f))
  }

  /**
   * What one turn does, by the shape of the entry's record: a falsy or
   * missing record is skipped, a truthy value that is not a dict raises
   * TypeError, a non-empty dict lacking `feeder_id` raises KeyError, and a record as
   * `to_dict` writes it is listed unchanged.
   */
  lemma EntryContributionCases(m: Memory, entry: Json)
    ensures var data := PyGet(m, FeederKey(PyStr(entry)));
      && (!Truthy(data) ==> EntryContribution(m, entry) == Skipped)
      && (Truthy(data) && !data.JObject? ==> EntryContribution(m, entry) == Failed(TypeError))
      && (Truthy(data) && data.JObject? && "feeder_id" !in KeySet(data.members) ==>
            EntryContribution(m, entry) == Failed(KeyError("feeder_id")))
      && (IsRecordOf(data, PyStr(entry)) ==> EntryContribution(m, entry) == Listed(data))
  {
    var data := PyGet(m, FeederKey(PyStr(entry)));
    FromDictOutcome(data);
    if IsRecordOf(data, PyStr(entry)) {
      FromDictOfToDict(Feeder(JString(PyStr(entry)), data.members[1].1, data.members[2].1, data.members[3].1));
    }
  }

  /** The turns for all entries, in index order. */
  function Contributions(m: Memory, entries: seq<Json>): (cs: seq<Contribution>)
    ensures |cs| == |entries|
    ensures forall i :: 0 <= i < |entries| ==> cs[i] == EntryContribution(m, entries[i])
  {
    seq(|entries|, i requires 0 <= i < |entries| => EntryContribution(m, entries[i]))
  }

  /** The loop run over its turns: the records listed, or the first exception raised. */
  function Gather(cs: seq<Contribution>): (r: Result<seq<Json>>)
    ensures r.Ok? ==> |r.value| <= |cs|
    ensures r.Ok? ==> forall c :: c in cs ==> !c.Failed?
    decreases |cs|
  {
    if cs == [] then Ok([])
    else
      var front := Gather(cs[..|cs| - 1]);
      assert forall c :: c in cs ==> c in cs[..|cs| - 1] || c == cs[|cs| - 1];
      match front
      case Err(e) => Err(e)
      case Ok(records) =>
        match cs[|cs| - 1]
        case Skipped => Ok(records)
        case Listed(record) => Ok(records + [record])
        case Failed(e) => Err(e)
  }

  /** `get_registered_feeders` as a function of the store. */
  function ListFeeders(m: Memory): (r: Response)
    ensures !r.Error?
    ensures PyGet(m, AllFeedersKey).JNull? ==> r == Success(JArray([]))
    ensures r.Success? ==> r.report.JArray?
  {
    var index := PyGet(m, AllFeedersKey);
    if index.JNull? then Success(JArray([]))
    else
      match Iterate(index)
      case None => Raised(TypeError)
      case Some(entries) =>
        match Gather(Contributions(m, entries))
        case Err(e) => Raised(e)
        case Ok(records) => Success(JArray(records))
  }

  // ---------------------------------------------------------------------------
  // get_feeder_health and get_feeder_alerts

  /** `get_feeder_health`: a placeholder status for any feeder whose record key exists. */
  function FeederHealth(m: Memory, id: string): (r: Response)
    ensures r.Error? <==> FeederKey(id) !in m
    ensures r.Error? ==> r.errorMessage == NotFound(id)
    ensures !r.Error? ==> r == Success(JString(HealthyStatus))
  {
    if FeederKey(id) !in m then Error(NotFound(id))
    else Success(JString(HealthyStatus))
  }

  /** `get_feeder_alerts`: the stored alert list of a feeder whose record key exists, never None. */
  function FeederAlerts(m: Memory, id: string): (r: Response)
    ensures r.Error? <==> FeederKey(id) !in m
    ensures r.Error? ==> r.errorMessage == NotFound(id)
    ensures r.Success? ==> r.report != JNull
    ensures r.Success? && AlertsKey(id) in m && m[AlertsKey(id)] != JNull ==> r.report == m[AlertsKey(id)]
    ensures r.Success? && PyGet(m, AlertsKey(id)).JNull? ==> r.report == JArray([])
    ensures !r.Raised?
  {
    if FeederKey(id) !in m then Error(NotFound(id))
    else
      var alerts := PyGet(m, AlertsKey(id));
      Success(if alerts.JNull? then JArray([]) else alerts)
  }

  // ---------------------------------------------------------------------------
  // The store object

  /** `_memory`, with `_save_memory` as a no-op and `_load_memory`'s result given to the constructor. */
  class FeederStore {
    var memory: Memory

    /** The store as `_load_memory` left it (empty when the file was missing or corrupt). */
    constructor (loaded: Memory)
      ensures memory == loaded
    {
      memory := loaded;
    }

    /** `register_feeder`: check, write the record, then append to the index. */
    method RegisterFeeder(id: string, name: string, location: string, configuration: Json) returns (r: Response)
      modifies this
      ensures (r, memory) == Register(old(memory), id, name, location, configuration)
      ensures Consistent(old(memory)) ==> Consistent(memory) && !r.Raised?
    {
      ghost var before := memory;
      var key := FeederKey(id);
      if key in memory {
        return Error(AlreadyExists(id));
      }
      var feeder := NewFeeder(id, name, location, configuration);
      memory := memory[key := ToDict(feeder)];
      var index := PyGet(memory, AllFeedersKey);
      if index.JNull? {
        index := JArray([]);
      }
      if !index.JArray? {
        r := Raised(AttributeError);
      } else {
        memory := memory[AllFeedersKey := JArray(index.items + [JString(id)])];
        r := Success(ToDict(feeder));
      }
      KeyFamiliesDisjoint(id, id);
      if Consistent(before) {
        RegisterKeepsConsistent(before, id, name, location, configuration);
      }
    }

    /** One turn of the loop: look the entry's record up, and decode and re-encode it when truthy. */
    method Turn(entry: Json) returns (c: Contribution)
      ensures c == EntryContribution(memory, entry)
    {
      var data := PyGet(memory, FeederKey(PyStr(entry)));
      if !Truthy(data) {
        return Skipped;
      }
      var decoded := FromDict(data);
      if decoded.Err? {
        return Failed(decoded.error);
      }
      return Listed(ToDict(decoded.value));
    }

    /** The `for` loop over the index entries: the records listed, or the first exception raised. */
    method Collect(entries: seq<Json>) returns (res: Result<seq<Json>>)
      ensures res == Gather(Contributions(memory, entries))
    {
      ghost var turns := Contributions(memory, entries);
      var feeders: seq<Json> := [];
      for i := 0 to |entries|
        invariant Gather(turns[..i]) == Ok(feeders)
      {
        var turn := Turn(entries[i]);
        GatherStep(turns, i, feeders);
        if turn.Failed? {
          return Err(turn.error);
        }
        if turn.Listed? {
          feeders := feeders + [turn.record];
        }
      }
      assert turns[..|entries|] == turns;
      return Ok(feeders);
    }

    /** `get_registered_feeders`: an absent or null index lists nothing; otherwise the loop runs over it. */
    method GetRegisteredFeeders() returns (r: Response)
      ensures r == ListFeeders(memory)
    {
      var index := PyGet(memory, AllFeedersKey);
      if index.JNull? {
        return Success(JArray([]));
      }
      var iterated := Iterate(index);
      if iterated.None? {
        return Raised(TypeError);
      }
      var collected := Collect(iterated.value);
      if collected.Err? {
        return Raised(collected.error);
      }
      return Success(JArray(collected.value));
    }
  }

  // ---------------------------------------------------------------------------
  // The index invariant

  /** `v` is the dict `to_dict` writes for a feeder whose id is `id`. */
  predicate IsRecordOf(v: Json, id: string)
  {
    && v.JObject? && |v.members| == 4
    && v == ToDict(Feeder(JString(id), v.members[1].1, v.members[2].1, v.members[3].1))
  }

  /**
   * The store as the operations keep it: the index is absent, null or a list
   * of string ids, and each listed id has a record for that id.
   */
  predicate Consistent(m: Memory)
  {
    var index := PyGet(m, AllFeedersKey);
    && (index.JNull? || index.JArray?)
    && (index.JArray? ==> forall x :: x in index.items ==> x.JString? && IsRecordOf(PyGet(m, FeederKey(x.s)), x.s))
  }

  /**
   * The weaker invariant that holds for any loaded store: every entry of a
   * list index has a record under the key the listing looks it up by.
   */
  predicate Indexed(m: Memory)
  {
    var index := PyGet(m, AllFeedersKey);
    index.JArray? ==> forall x :: x in index.items ==> FeederKey(PyStr(x)) in m
  }

  /** Registration keeps every indexed entry backed by a record, whatever the call's outcome. */
  lemma RegisterKeepsIndexed(m: Memory, id: string, name: string, location: string, configuration: Json)
    requires Indexed(m)
    ensures Indexed(Register(m, id, name, location, configuration).1)
  {
    KeyFamiliesDisjoint(id, id);
    if FeederKey(id) !in m {
      RegisterNewFeeder(m, id, name, location, configuration);
    }
  }

  /** The listed ids of a consistent store. */
  function IndexIds(m: Memory): (ids: seq<Json>)
    requires Consistent(m)
    ensures forall x :: x in ids ==> x.JString?
  {
    var index := PyGet(m, AllFeedersKey);
    if index.JNull? then [] else index.items
  }

  /** Registration keeps the store consistent, and never raises on a consistent store. */
  lemma RegisterKeepsConsistent(m: Memory, id: string, name: string, location: string, configuration: Json)
    requires Consistent(m)
    ensures var (r, m') := Register(m, id, name, location, configuration);
      Consistent(m') && !r.Raised?
  {
    var (r, m') := Register(m, id, name, location, configuration);
    if FeederKey(id) !in m {
      RegisterNewFeeder(m, id, name, location, configuration);
      var items := IndexIds(m);
      assert PyGet(m', AllFeedersKey) == JArray(items + [JString(id)]);
      forall x | x in items + [JString(id)]
        ensures x.JString? && IsRecordOf(PyGet(m', FeederKey(x.s)), x.s)
      {
        if x != JString(id) {
          assert x in items;
          KeyFamiliesDisjoint(x.s, x.s);
          KeysInjective(x.s, id);
          RegisterFrame(m, id, name, location, configuration, FeederKey(x.s));
        }
      }
    }
  }

  // ---------------------------------------------------------------------------
  // Listing

  /** One more turn at the end of the loop. */
  lemma GatherSnoc(cs: seq<Contribution>, c: Contribution)
    ensures Gather(cs + [c]) == match Gather(cs)
      case Err(e) => Err(e)
      case Ok(records) => (match c
        case Skipped => Ok(records)
        case Listed(record) => Ok(records + [record])
        case Failed(e) => Err(e))
  {
    assert (cs + [c])[..|cs|] == cs;
  }

  lemma PrefixSnoc(cs: seq<Contribution>, i: nat)
    requires i < |cs|
    ensures cs[..i] + [cs[i]] == cs[..i + 1]
  {
  }

  /** One turn of the loop, past an error-free prefix: it raises, skips or lists. */
  lemma GatherStep(cs: seq<Contribution>, i: nat, records: seq<Json>)
    requires i < |cs| && Gather(cs[..i]) == Ok(records)
    ensures cs[i].Failed? ==> Gather(cs) == Err(cs[i].error)
    ensures cs[i].Skipped? ==> Gather(cs[..i + 1]) == Ok(records)
    ensures cs[i].Listed? ==> Gather(cs[..i + 1]) == Ok(records + [cs[i].record])
  {
    GatherSnoc(cs[..i], cs[i]);
    PrefixSnoc(cs, i);
    if cs[i].Failed? {
      GatherStopsAtError(cs[..i + 1], cs[i + 1..]);
      assert cs[..i + 1] + cs[i + 1..] == cs;
    }
  }

  /** The first exception ends the loop: later entries are never looked at. */
  lemma {:induction false} GatherStopsAtError(xs: seq<Contribution>, ys: seq<Contribution>)
    requires Gather(xs).Err?
    ensures Gather(xs + ys) == Gather(xs)
    decreases |ys|
  {
    if ys == [] {
      assert xs + ys == xs;
    } else {
      var front, last := ys[..|ys| - 1], ys[|ys| - 1];
      assert xs + ys == (xs + front) + [last];
      GatherStopsAtError(xs, front);
      GatherSnoc(xs + front, last);
    }
  }

  /**
   * Past an error-free prefix, the loop over `xs + ys` is the loop over `xs`
   * followed by the loop over `ys`: records come out in index order.
   */
  lemma {:induction false} GatherAppend(xs: seq<Contribution>, ys: seq<Contribution>)
    requires Gather(xs).Ok?
    ensures Gather(ys).Err? ==> Gather(xs + ys) == Gather(ys)
    ensures Gather(ys).Ok? ==> Gather(xs + ys) == Ok(Gather(xs).value + Gather(ys).value)
    decreases |ys|
  {
    if ys == [] {
      assert xs + ys == xs;
      assert Gather(xs).value + [] == Gather(xs).value;
    } else {
      var front, last := ys[..|ys| - 1], ys[|ys| - 1];
      assert ys == front + [last];
      assert xs + ys == (xs + front) + [last];
      GatherAppend(xs, front);
      GatherSnoc(xs + front, last);
      GatherSnoc(front, last);
      var head := Gather(xs).value;
      match Gather(front)
      case Err(_) =>
      case Ok(t) =>
        assert Gather(xs + front) == Ok(head + t);
        match last
        case Skipped =>
        case Failed(_) =>
        case Listed(r) =>
          assert head + t + [r] == head + (t + [r]);
    }
  }

  /** The records of turns that all list one. */
  function ListedRecords(cs: seq<Contribution>): (rs: seq<Json>)
    requires forall c :: c in cs ==> c.Listed?
    ensures |rs| == |cs|
    ensures forall i :: 0 <= i < |cs| ==> rs[i] == cs[i].record
    decreases |cs|
  {
    if cs == [] then []
    else
      assert forall c :: c in cs[..|cs| - 1] ==> c in cs;
      assert cs[|cs| - 1] in cs;
      ListedRecords(cs[..|cs| - 1]) + [cs[|cs| - 1].record]
  }

  /** A loop whose every turn lists a record lists all of them, in order. */
  lemma {:induction false} GatherAllListed(cs: seq<Contribution>)
    requires forall c :: c in cs ==> c.Listed?
    ensures Gather(cs) == Ok(ListedRecords(cs))
    decreases |cs|
  {
    if cs != [] {
      var front, last := cs[..|cs| - 1], cs[|cs| - 1];
      assert forall c :: c in front ==> c in cs;
      assert last in cs;
      GatherAllListed(front);
    }
  }

  /** A loop whose every turn skips lists nothing. */
  lemma {:induction false} GatherAllSkipped(cs: seq<Contribution>)
    requires forall c :: c in cs ==> c.Skipped?
    ensures Gather(cs) == Ok([])
    decreases |cs|
  {
    if cs != [] {
      assert forall c :: c in cs[..|cs| - 1] ==> c in cs;
      assert cs[|cs| - 1] in cs;
      GatherAllSkipped(cs[..|cs| - 1]);
    }
  }

  /** The records of `ids`, in order, with none skipped. */
  function RecordsOf(m: Memory, ids: seq<Json>): (rs: seq<Json>)
    ensures |rs| == |ids|
    ensures forall i :: 0 <= i < |ids| ==> rs[i] == PyGet(m, FeederKey(PyStr(ids[i])))
  {
    seq(|ids|, i requires 0 <= i < |ids| => PyGet(m, FeederKey(PyStr(ids[i]))))
  }

  /** A consistent store lists exactly the records of its index, one per entry, unchanged. */
  lemma ListConsistent(m: Memory)
    requires Consistent(m)
    ensures ListFeeders(m) == Success(JArray(RecordsOf(m, IndexIds(m))))
  {
    var index := PyGet(m, AllFeedersKey);
    if index.JArray? {
      var ids := index.items;
      var cs := Contributions(m, ids);
      forall i | 0 <= i < |ids|
        ensures cs[i] == Listed(PyGet(m, FeederKey(ids[i].s)))
      {
        assert ids[i] in ids;
        var v := PyGet(m, FeederKey(ids[i].s));
        FromDictOfToDict(Feeder(JString(ids[i].s), v.members[1].1, v.members[2].1, v.members[3].1));
      }
      GatherAllListed(cs);
      assert ListedRecords(cs) == RecordsOf(m, ids);
    }
  }

  /** The turns for a concatenation of entries are the concatenated turns. */
  lemma ContributionsAppend(m: Memory, xs: seq<Json>, ys: seq<Json>)
    ensures Contributions(m, xs + ys) == Contributions(m, xs) + Contributions(m, ys)
  {
  }

  /** Turns that only skip can be taken out of the loop without changing its outcome. */
  lemma {:induction false} GatherDropsSkips(a: seq<Contribution>, d: seq<Contribution>, b: seq<Contribution>)
    requires forall c :: c in d ==> c.Skipped?
    ensures Gather(a + d + b) == Gather(a + b)
  {
    GatherAllSkipped(d);
    assert a + d + b == a + (d + b);
    if Gather(a).Err? {
      GatherStopsAtError(a, d + b);
      GatherStopsAtError(a, b);
    } else {
      GatherAppend(d, b);
      GatherAppend(a, d + b);
      GatherAppend(a, b);
      if Gather(b).Ok? {
        assert [] + Gather(b).value == Gather(b).value;
      }
    }
  }

  /** The truthy records of the entries, in index order. */
  function Present(m: Memory, entries: seq<Json>): (rs: seq<Json>)
    ensures |rs| <= |entries|
    ensures forall r :: r in rs ==> Truthy(r)
  {
    if entries == [] then []
    else
      var front := Present(m, entries[..|entries| - 1]);
      var data := PyGet(m, FeederKey(PyStr(entries[|entries| - 1])));
      if Truthy(data) then front + [data] else front
  }

  /** Every entry's record is either missing or falsy, or a record `to_dict` wrote for it. */
  predicate RecordedOrMissing(m: Memory, entries: seq<Json>)
  {
    forall x :: x in entries ==>
      var data := PyGet(m, FeederKey(PyStr(x)));
      !Truthy(data) || IsRecordOf(data, PyStr(x))
  }

  /** The turn of an entry whose record is its own or none: listed when truthy, skipped otherwise. */
  lemma RecordedOrMissingTurn(m: Memory, entry: Json)
    requires RecordedOrMissing(m, [entry])
    ensures var data := PyGet(m, FeederKey(PyStr(entry)));
      EntryContribution(m, entry) == if Truthy(data) then Listed(data) else Skipped
  {
    assert entry in [entry];
    EntryContributionCases(m, entry);
  }

  /** Over such entries the loop lists exactly the truthy records, in order. */
  lemma {:induction false} GatherPresent(m: Memory, entries: seq<Json>)
    requires RecordedOrMissing(m, entries)
    ensures Gather(Contributions(m, entries)) == Ok(Present(m, entries))
    decreases |entries|
  {
    if entries != [] {
      var front, last := entries[..|entries| - 1], entries[|entries| - 1];
      assert entries == front + [last];
      assert RecordedOrMissing(m, front) && RecordedOrMissing(m, [last]);
      GatherPresent(m, front);
      ContributionsAppend(m, front, [last]);
      RecordedOrMissingTurn(m, last);
      GatherSnoc(Contributions(m, front), EntryContribution(m, last));
    }
  }

  /**
   * A list index whose entries have either their own record or none lists
   * the present records in index order and leaves the others out.
   */
  lemma ListMixed(m: Memory)
    requires PyGet(m, AllFeedersKey).JArray?
    requires RecordedOrMissing(m, PyGet(m, AllFeedersKey).items)
    ensures ListFeeders(m) == Success(JArray(Present(m, PyGet(m, AllFeedersKey).items)))
  {
    GatherPresent(m, PyGet(m, AllFeedersKey).items);
  }

  /** Entries without a truthy record drop out of the listing wherever they stand in the index. */
  lemma DanglingEntriesDropped(m: Memory, xs: seq<Json>, dangling: seq<Json>, ys: seq<Json>)
    requires forall x :: x in dangling ==> !Truthy(PyGet(m, FeederKey(PyStr(x))))
    ensures Gather(Contributions(m, xs + dangling + ys)) == Gather(Contributions(m, xs + ys))
  {
    var a, d, b := Contributions(m, xs), Contributions(m, dangling), Contributions(m, ys);
    ContributionsAppend(m, xs, dangling);
    ContributionsAppend(m, xs + dangling, ys);
    ContributionsAppend(m, xs, ys);
    forall c | c in d ensures c.Skipped? {
      var i :| 0 <= i < |d| && d[i] == c;
      assert dangling[i] in dangling;
    }
    GatherDropsSkips(a, d, b);
  }

  /** The listing never holds more records than the index has entries. */
  lemma ListBoundedByIndex(m: Memory)
    requires ListFeeders(m).Success?
    requires !PyGet(m, AllFeedersKey).JNull?
    ensures Iterate(PyGet(m, AllFeedersKey)).Some?
    ensures |ListFeeders(m).report.items| <= |Iterate(PyGet(m, AllFeedersKey)).value|
  {
  }

  /** Index entries whose records read the same in two stores have the same records. */
  lemma RecordsOfUnchanged(m: Memory, m': Memory, ids: seq<Json>)
    requires forall x :: x in ids ==> PyGet(m', FeederKey(PyStr(x))) == PyGet(m, FeederKey(PyStr(x)))
    ensures RecordsOf(m', ids) == RecordsOf(m, ids)
  {
    forall i | 0 <= i < |ids| ensures RecordsOf(m', ids)[i] == RecordsOf(m, ids)[i] {
      assert ids[i] in ids;
    }
  }

  lemma RecordsOfSnoc(m: Memory, ids: seq<Json>, x: Json)
    ensures RecordsOf(m, ids + [x]) == RecordsOf(m, ids) + [PyGet(m, FeederKey(PyStr(x)))]
  {
  }

  /**
   * A consistent store whose index gained one id at the end, with every
   * earlier record kept, lists the earlier records followed by the new one.
   */
  lemma ListAfterAppend(m: Memory, m': Memory, id: string)
    requires Consistent(m) && Consistent(m')
    requires IndexIds(m') == IndexIds(m) + [JString(id)]
    requires forall x :: x in IndexIds(m) ==> PyGet(m', FeederKey(x.s)) == PyGet(m, FeederKey(x.s))
    ensures ListFeeders(m').Success? && ListFeeders(m).Success?
    ensures ListFeeders(m').report.items == ListFeeders(m).report.items + [PyGet(m', FeederKey(id))]
  {
    var ids := IndexIds(m);
    ListConsistent(m);
    ListConsistent(m');
    RecordsOfUnchanged(m, m', ids);
    RecordsOfSnoc(m', ids, JString(id));
  }

  /**
   * Registering a new feeder in a consistent store appends its record to the
   * listing and leaves the earlier records as they were.
   */
  lemma RegisterThenList(m: Memory, id: string, name: string, location: string, configuration: Json)
    requires Consistent(m)
    requires FeederKey(id) !in m
    ensures var (r, m') := Register(m, id, name, location, configuration);
      && r == Success(ToDict(NewFeeder(id, name, location, configuration)))
      && ListFeeders(m').Success? && ListFeeders(m).Success?
      && ListFeeders(m').report.items == ListFeeders(m).report.items + [r.report]
  {
    var (r, m') := Register(m, id, name, location, configuration);
    RegisterKeepsConsistent(m, id, name, location, configuration);
    RegisterNewFeeder(m, id, name, location, configuration);
    var ids := IndexIds(m);
    assert IndexIds(m') == ids + [JString(id)];
    forall x | x in ids
      ensures PyGet(m', FeederKey(x.s)) == PyGet(m, FeederKey(x.s))
    {
      KeysInjective(x.s, id);
      KeyFamiliesDisjoint(x.s, x.s);
      RegisterFrame(m, id, name, location, configuration, FeederKey(x.s));
    }
    ListAfterAppend(m, m', id);
  }

  /**
   * After any registration call, even one that was rejected or raised, the
   * feeder is found: health reports the placeholder status and alerts read
   * the alert entry as it was before the call.
   */
  lemma RegisteredFeederIsFound(m: Memory, id: string, name: string, location: string, configuration: Json)
    ensures var m' := Register(m, id, name, location, configuration).1;
      var alerts := PyGet(m, AlertsKey(id));
      && FeederHealth(m', id) == Success(JString(HealthyStatus))
      && FeederAlerts(m', id) == Success(if alerts.JNull? then JArray([]) else alerts)
  {
    var m' := Register(m, id, name, location, configuration).1;
    if FeederKey(id) !in m {
      RegisterNewFeeder(m, id, name, location, configuration);
    } else {
      RegisterRejectsDuplicate(m, id, name, location, configuration);
    }
    assert FeederKey(id) in m';
    RegisterKeepsAlerts(m, id, name, location, configuration, id);
  }

  /**
   * Once any call has run for an id, successful or not, every later call for
   * it is rejected and leaves the store as the first call left it. In
   * particular an id whose first registration raised is never indexed.
   */
  lemma SecondRegistrationRejected(m: Memory, id: string, name: string, location: string, configuration: Json,
                                   name': string, location': string, configuration': Json)
    ensures var m' := Register(m, id, name, location, configuration).1;
      Register(m', id, name', location', configuration') == (Error(AlreadyExists(id)), m')
  {
    if FeederKey(id) !in m {
      RegisterNewFeeder(m, id, name, location, configuration);
      RegisterRejectsDuplicate(Register(m, id, name, location, configuration).1, id, name', location', configuration');
    } else {
      RegisterRejectsDuplicate(m, id, name, location, configuration);
      RegisterRejectsDuplicate(m, id, name', location', configuration');
    }
  }
}
