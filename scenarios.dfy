/**
 * Concrete runs of the registry: a session from an empty store (register a
 * feeder, try to register it again, list the feeders, look up its health and
 * alerts), and a store whose index holds an id without a record.
 */
module Scenarios {
  import opened JsonValues
  import opened Responses
  import opened Feeders
  import opened StoreKeys
  import opened Registry

  const Record: Json := JObject([("feeder_id", JString("F1")), ("name", JString("Main Street")),
                                  ("location", JString("North")), ("configuration", JNull)])

  lemma MessageTexts()
    ensures AlreadyExists("F1") == "Feeder ID 'F1' already exists."
    ensures NotFound("F2") == "Feeder ID 'F2' not found."
  {
  }

  lemma FirstSession()
    ensures var (r1, m1) := Register(map[], "F1", "Main Street", "North", JNull);
      && r1 == Success(Record)
      && Register(m1, "F1", "Other", "South", JNull) == (Error("Feeder ID 'F1' already exists."), m1)
      && ListFeeders(m1) == Success(JArray([Record]))
      && FeederHealth(m1, "F1") == Success(JString("Operational and healthy."))
      && FeederHealth(m1, "F2") == Error("Feeder ID 'F2' not found.")
      && FeederAlerts(m1, "F1") == Success(JArray([]))
  {
    var m0: Memory := map[];
    assert Consistent(m0);
    var (r1, m1) := Register(m0, "F1", "Main Street", "North", JNull);
    SessionRecord();
    RegisterThenList(m0, "F1", "Main Street", "North", JNull);
    assert r1 == Success(Record);
    assert ListFeeders(m1) == Success(JArray([Record]));
    MessageTexts();
    SecondRegistrationRejected(m0, "F1", "Main Street", "North", JNull, "Other", "South", JNull);
    RegisteredFeederIsFound(m0, "F1", "Main Street", "North", JNull);
    RegisterKeepsAlerts(m0, "F1", "Main Street", "North", JNull, "F1");
    KeysInjective("F2", "F1");
    RegisterFrame(m0, "F1", "Main Street", "North", JNull, FeederKey("F2"));
    KeyFamiliesDisjoint("F2", "F2");
  }

  /** The record `to_dict` writes for the session's feeder. */
  lemma SessionRecord()
    ensures ToDict(NewFeeder("F1", "Main Street", "North", JNull)) == Record
    ensures IsRecordOf(Record, "F1")
  {
    assert Record == ToDict(Feeder(JString("F1"), JString("Main Street"), JString("North"), JNull));
  }

  /** A store whose index holds "F1" but which has no record for it. */
  const Dangling: Memory := map[AllFeedersKey := JArray([JString("F1")])]

  /** Before registration the entry without a record is not listed. */
  lemma DanglingEntrySkipped()
    ensures ListFeeders(Dangling) == Success(JArray([]))
  {
    KeyFamiliesDisjoint("F1", "F1");
    DanglingEntriesDropped(Dangling, [], [JString("F1")], []);
    assert Gather(Contributions(Dangling, [])) == Ok([]);
  }
}
