/**
 * The key families of the registry's store: one `feeder:<id>` record per
 * feeder, the `all_feeders` index, and `alerts:<id>` alert lists.
 */
module StoreKeys {

  const AllFeedersKey: string := "all_feeders"

  /** `f"feeder:{feeder_id}"`: the id after a fixed seven-character prefix. */
  function FeederKey(id: string): string
  {
    "feeder:" + id
  }

  /** `f"alerts:{feeder_id}"`: the id after a fixed seven-character prefix. */
  function AlertsKey(id: string): string
  {
    "alerts:" + id
  }

  /** Different ids never share a record key, nor an alerts key. */
  lemma KeysInjective(a: string, b: string)
    ensures FeederKey(a) == FeederKey(b) ==> a == b
    ensures AlertsKey(a) == AlertsKey(b) ==> a == b
  {
    if FeederKey(a) == FeederKey(b) {
      assert a == FeederKey(a)[7..] == FeederKey(b)[7..] == b;
    }
    if AlertsKey(a) == AlertsKey(b) {
      assert a == AlertsKey(a)[7..] == AlertsKey(b)[7..] == b;
    }
  }

  /** The three key families never overlap, whatever the ids. */
  lemma KeyFamiliesDisjoint(id: string, other: string)
    ensures FeederKey(id) != AllFeedersKey
    ensures AlertsKey(id) != AllFeedersKey
    ensures FeederKey(id) != AlertsKey(other)
  {
    assert FeederKey(id)[0] == 'f' && AlertsKey(other)[0] == 'a';
    assert AllFeedersKey[1] == 'l' && AlertsKey(id)[1] == 'l' && AlertsKey(id)[2] == 'e';
    assert AllFeedersKey[2] == 'l';
  }
}
